/** The `message` handler: the body predicates, the argument handling of
    `/guess` and `/crimson `, the `/tagall` text builder, and the whole handler
    as one step from the bot's state before a message to its state after it. */
module Dispatch {
  import opened Js
  import opened Transport
  import opened Progression

  /** What the completion collaborator does with a prompt: its promise rejects
      (`Failed`), or it answers with the first choice's content, `None` when the
      response lacks that field. */
  datatype Completion = Failed | Answered(content: Option<string>)

  /** The handler's `if` statements, in source order. */
  datatype Branch = Chatter | ProfileCmd | TagAllCmd | CrimsonCmd | MuteCmd | UnmuteCmd | GameCmd | GuessCmd

  /** The test each branch makes on `msg.body` (the chat conditions of
      `/tagall`, `/mute` and `/unmute` come on top of these). */
  predicate Fires(b: Branch, body: string)
    ensures Fires(b, body) ==> (b == Chatter <==> !StartsWith(body, "/"))
  {
    match b
    case Chatter => !StartsWith(body, "/")
    case ProfileCmd => body == "/profile"
    case TagAllCmd => body == "/tagall"
    case CrimsonCmd => StartsWith(body, "/crimson ")
    case MuteCmd => body == "/mute"
    case UnmuteCmd => body == "/unmute"
    case GameCmd => body == "/game"
    case GuessCmd => StartsWith(body, "/guess")
  }

  /** The one branch whose test a body passes, if any, decided by looking at
      the body the other way round: prefixes first, then exact commands. */
  function Classify(body: string): (c: Option<Branch>)
    ensures c.Some? ==> Fires(c.value, body)
    ensures c.None? ==> StartsWith(body, "/")
  {
    if !StartsWith(body, "/") then Some(Chatter)
    else if StartsWith(body, "/crimson ") then Some(CrimsonCmd)
    else if StartsWith(body, "/guess") then Some(GuessCmd)
    else if body == "/profile" then Some(ProfileCmd)
    else if body == "/tagall" then Some(TagAllCmd)
    else if body == "/mute" then Some(MuteCmd)
    else if body == "/unmute" then Some(UnmuteCmd)
    else if body == "/game" then Some(GameCmd)
    else None
  }

  /** Passing the test of `b` makes `Classify` pick `b`. */
  lemma ClassifyFired(b: Branch, body: string)
    ensures Fires(b, body) ==> Classify(body) == Some(b)
  {
    if Fires(b, body) {
      match b
      case Chatter =>
      case CrimsonCmd =>
        assert body[..1] == body[..9][..1];
      case GuessCmd =>
        assert body[..1] == body[..6][..1];
        assert |body| < 9 || body[..9][1] == body[..6][1];
      case ProfileCmd => assert body[..6][1] == 'p';
      case TagAllCmd => assert body[..6][1] == 't';
      case UnmuteCmd => assert body[..6][1] == 'u';
      case _ =>
    }
  }

  /** `Classify` names exactly the branches whose test passes: a body passes
      the test of `b` if and only if `Classify` gives `b`, so it passes at most
      one test. */
  lemma FiresExactly(body: string)
    ensures forall b :: Fires(b, body) <==> Classify(body) == Some(b)
  {
    forall b ensures Fires(b, body) <==> Classify(body) == Some(b) {
      ClassifyFired(b, body);
    }
  }

  /** No body passes two of the tests: the chat award excludes every command,
      and the exact commands and the two prefixes exclude one another. */
  lemma BranchesDisjoint(body: string)
    ensures forall b1, b2 :: Fires(b1, body) && Fires(b2, body) ==> b1 == b2
  {
    FiresExactly(body);
  }

  /** `parseInt(msg.body.split(' ')[1])`: the word after the first space, read
      as an integer; `None` (`NaN`) when there is no such word or it does not
      start with a number. */
  function GuessArgument(body: string): (g: Option<int>)
    ensures ' ' !in body ==> g.None?
  {
    var words := Split(body, ' ');
    if |words| >= 2 then ParseInt(words[1]) else None
  }

  /** `/guess n`, with `n` written as `String(n)` writes it, reads back `n`. */
  lemma GuessArgumentOfNumber(n: int)
    ensures GuessArgument("/guess " + IntToString(n)) == Some(n)
  {
    var digits := IntToString(n);
    assert forall k :: 0 <= k < |digits| ==> digits[k] != ' ' by {
      var m: nat := if n < 0 then -n else n;
      var w := NatToString(m);
      if n < 0 {
        assert digits == "-" + w;
        forall k | 1 <= k < |digits| ensures digits[k] != ' ' {
          assert digits[k] == w[k - 1];
        }
      }
    }
    var words := ["/guess", digits];
    assert "/guess " + digits == Join(words, ' ');
    SplitJoin(words, ' ');
    ParseIntToString(n, []);
    assert digits + [] == digits;
  }

  /** A word without a decimal digit (a name, an empty word between two spaces,
      a missing word) makes the guess `NaN`, which matches no target. */
  lemma GuessArgumentWithoutDigits(word: string, rest: string)
    requires ' ' !in word
    requires forall k :: 0 <= k < |word| ==> !IsDigit(word[k], 10)
    requires rest == [] || rest[0] == ' '
    ensures GuessArgument("/guess " + word + rest) == None
  {
    var body := "/guess " + word + rest;
    var tail := [' '] + (word + rest);
    assert body == "/guess" + tail;
    SplitPiece("/guess", tail, ' ');
    assert tail[1..] == word + rest;
    SplitPiece(word, rest, ' ');
    NoDigitsIsNaN(word + Split(rest, ' ')[0]);
  }

  /** `data.choices?.[0]?.message?.content || '...'`. */
  function ReplyText(content: Option<string>): (text: string)
    ensures text != []
    ensures content.Some? && content.value != [] ==> text == content.value
  {
    if content.None? || content.value == [] then "..." else content.value
  }

  function TagAllHeader(): string
  {
    "\U{1F4E2} *Kurimuzon\U{2666}\U{FE0F} calls you all:*\n"
  }

  /** The piece of `/tagall` text for one participant. */
  function Tag(p: Participant): string
  {
    "@" + p.user + " "
  }

  /** The pieces joined end to end. */
  function Concat(pieces: seq<string>): string
  {
    if pieces == [] then [] else Concat(pieces[..|pieces| - 1]) + pieces[|pieces| - 1]
  }

  /** The `/tagall` loop: one mention address and one `@user ` tag per
      participant, both in participant order, after the fixed header. */
  method BuildTagAll(participants: seq<Participant>) returns (text: string, mentions: seq<string>)
    ensures |mentions| == |participants|
    ensures forall k :: 0 <= k < |participants| ==> mentions[k] == participants[k].serialized
    ensures text == TagAllHeader() + Concat(seq(|participants|, k requires 0 <= k < |participants| => Tag(participants[k])))
  {
    text := TagAllHeader();
    mentions := [];
    var i := 0;
    while i < |participants|
      invariant 0 <= i <= |participants|
      invariant |mentions| == i
      invariant forall k :: 0 <= k < i ==> mentions[k] == participants[k].serialized
      invariant text == TagAllHeader() + Concat(seq(i, k requires 0 <= k < i => Tag(participants[k])))
    {
      var participant := participants[i];
      ghost var tags := seq(i + 1, k requires 0 <= k < i + 1 => Tag(participants[k]));
      assert tags[..i] == seq(i, k requires 0 <= k < i => Tag(participants[k]));
      mentions := mentions + [participant.serialized];
      text := text + "@" + participant.user + " ";
      i := i + 1;
    }
  }

  function TagAllText(participants: seq<Participant>): string
  {
    TagAllHeader() + Concat(seq(|participants|, k requires 0 <= k < |participants| => Tag(participants[k])))
  }

  function TagAllMentions(participants: seq<Participant>): seq<string>
  {
    seq(|participants|, k requires 0 <= k < |participants| => participants[k].serialized)
  }

  function MutedText(): string
  {
    "\U{1F507} Group muted by Kurimuzon\U{2666}\U{FE0F}"
  }

  function UnmutedText(): string
  {
    "\U{1F50A} Group unmuted by Kurimuzon\U{2666}\U{FE0F}"
  }

  /** The `/tagall` branch. */
  function TagAllStep(st: State, body: string, chat: Chat): (r: State)
    ensures r.xpData == st.xpData && r.saves == st.saves
    ensures st.outbox <= r.outbox && |r.outbox| <= |st.outbox| + 1
    ensures r != st <==> body == "/tagall" && chat.isGroup && chat.participants.Some?
  {
    if body == "/tagall" && chat.isGroup && chat.participants.Some? then
      var ps := chat.participants.value;
      st.(outbox := st.outbox + [Send(chat.id, TagAllText(ps), TagAllMentions(ps))])
    else st
  }

  /** The `/mute` branch. */
  function MuteStep(st: State, body: string, chat: Chat): (r: State)
    ensures r.xpData == st.xpData && r.saves == st.saves && st.outbox <= r.outbox
    ensures r != st <==> body == "/mute" && chat.isGroup
  {
    if body == "/mute" && chat.isGroup then
      st.(outbox := st.outbox + [Mute(chat.id), Send(chat.id, MutedText(), [])])
    else st
  }

  /** The `/unmute` branch. */
  function UnmuteStep(st: State, body: string, chat: Chat): (r: State)
    ensures r.xpData == st.xpData && r.saves == st.saves && st.outbox <= r.outbox
    ensures r != st <==> body == "/unmute" && chat.isGroup
  {
    if body == "/unmute" && chat.isGroup then
      st.(outbox := st.outbox + [Unmute(chat.id), Send(chat.id, UnmutedText(), [])])
    else st
  }

  /** The branches that never touch the store: `/tagall`, `/crimson `, `/mute`
      and `/unmute`. Returns `None` when the awaited completion rejects, which
      ends the handler there. */
  function ChatBranches(st: State, msg: Message, chat: Chat, complete: string -> Completion): (r: Option<State>)
    ensures r.Some? ==> r.value.xpData == st.xpData && r.value.saves == st.saves && st.outbox <= r.value.outbox
    ensures r.None? <==> StartsWith(msg.body, "/crimson ") && complete(ReplaceFirst(msg.body, "/crimson ", "")).Failed?
  {
    var sender, body := msg.from, msg.body;
    var s3 := TagAllStep(st, body, chat);
    if StartsWith(body, "/crimson ") then
      match complete(ReplaceFirst(body, "/crimson ", ""))
      case Failed => None
      case Answered(content) =>
        var s4 := s3.(outbox := s3.outbox + [Send(sender, "\U{1FA78} " + ReplyText(content), [])]);
        Some(UnmuteStep(MuteStep(s4, body, chat), body, chat))
    else
      Some(UnmuteStep(MuteStep(s3, body, chat), body, chat))
  }

  /** The chat award: a body that is not a command earns 5 XP. */
  function ChatterStep(st: State, msg: Message): (r: State)
    ensures r.xpData - {msg.from} == st.xpData - {msg.from}
    ensures st.outbox <= r.outbox
    ensures r.saves == st.saves + (if StartsWith(msg.body, "/") then 0 else 1)
  {
    if !StartsWith(msg.body, "/") then AddXP(st, msg.from, 5) else st
  }

  /** The `/profile` branch. */
  function ProfileStep(st: State, msg: Message): (r: State)
    ensures r.xpData == st.xpData && r.saves == st.saves
    ensures st.outbox <= r.outbox
    ensures |r.outbox| == |st.outbox| + (if msg.body == "/profile" then 1 else 0)
  {
    if msg.body == "/profile" then Profile(st, msg.from) else st
  }

  /** The `/game` branch. */
  function GameStep(st: State, msg: Message, roll: int): (r: State)
    requires 1 <= roll <= 10
    ensures r.xpData - {msg.from} == st.xpData - {msg.from}
    ensures st.outbox <= r.outbox
    ensures r.saves == st.saves + (if msg.body == "/game" then 1 else 0)
    ensures msg.body == "/game" ==> msg.from in r.xpData && r.xpData[msg.from].game == Some(roll)
  {
    if msg.body == "/game" then StartGame(st, msg.from, roll) else st
  }

  /** The `/guess` branch. */
  function GuessStep(st: State, msg: Message): (r: State)
    ensures r.xpData - {msg.from} == st.xpData - {msg.from}
    ensures st.outbox <= r.outbox
    ensures r != st ==> StartsWith(msg.body, "/guess") && HasOpenRound(st.xpData, msg.from)
    ensures r != st ==> msg.from in r.xpData && r.xpData[msg.from].game == None
  {
    if StartsWith(msg.body, "/guess") then ResolveGuess(st, msg.from, GuessArgument(msg.body)) else st
  }

  /** What the handler does after the chat award and `/profile`: the branches
      that leave the store alone, then, unless a completion rejected, `/game`
      and `/guess`. */
  function Tail(st: State, msg: Message, chat: Chat, roll: int, complete: string -> Completion): (r: State)
    requires 1 <= roll <= 10
    ensures r.xpData - {msg.from} == st.xpData - {msg.from}
    ensures st.outbox <= r.outbox
  {
    match ChatBranches(st, msg, chat, complete)
    case None => st
    case Some(s6) => GuessStep(GameStep(s6, msg, roll), msg)
  }

  /** One run of the `message` handler for `msg` in `chat`: every branch whose
      test passes runs, in source order, on the state the earlier ones left.
      `roll` is what `Math.random` gave `/game`; `complete` is the completion
      collaborator. Only the sender's entry can change. */
  function Handle(st: State, msg: Message, chat: Chat, roll: int, complete: string -> Completion): (r: State)
    requires 1 <= roll <= 10
    ensures r.xpData - {msg.from} == st.xpData - {msg.from}
    ensures st.outbox <= r.outbox
  {
    Tail(ProfileStep(ChatterStep(st, msg), msg), msg, chat, roll, complete)
  }

  /** The handler as a single dispatch on the one branch `Classify` picks. */
  function Exclusive(st: State, msg: Message, chat: Chat, roll: int, complete: string -> Completion): State
    requires 1 <= roll <= 10
  {
    var sender, body := msg.from, msg.body;
    match Classify(body)
    case None => st
    case Some(Chatter) => AddXP(st, sender, 5)
    case Some(ProfileCmd) => Profile(st, sender)
    case Some(TagAllCmd) =>
      if chat.isGroup && chat.participants.Some? then
        var ps := chat.participants.value;
        st.(outbox := st.outbox + [Send(chat.id, TagAllText(ps), TagAllMentions(ps))])
      else st
    case Some(CrimsonCmd) =>
      (match complete(body[9..])
       case Failed => st
       case Answered(c) => st.(outbox := st.outbox + [Send(sender, "\U{1FA78} " + ReplyText(c), [])]))
    case Some(MuteCmd) =>
      if chat.isGroup then st.(outbox := st.outbox + [Mute(chat.id), Send(chat.id, MutedText(), [])]) else st
    case Some(UnmuteCmd) =>
      if chat.isGroup then st.(outbox := st.outbox + [Unmute(chat.id), Send(chat.id, UnmutedText(), [])]) else st
    case Some(GameCmd) => StartGame(st, sender, roll)
    case Some(GuessCmd) => ResolveGuess(st, sender, GuessArgument(body))
  }

  /** A body that is not classified as a chat message earns nothing. */
  lemma ChatterIdle(st: State, msg: Message)
    requires Classify(msg.body) != Some(Chatter)
    ensures ChatterStep(st, msg) == st
  {
  }

  /** A body not classified as `/profile` sends no profile. */
  lemma ProfileIdle(st: State, msg: Message)
    requires Classify(msg.body) != Some(ProfileCmd)
    ensures ProfileStep(st, msg) == st
  {
    ClassifyFired(ProfileCmd, msg.body);
  }

  /** A body classified as none of `/tagall`, `/crimson `, `/mute` and
      `/unmute` passes none of their tests. */
  lemma ChatBranchesIdle(st: State, msg: Message, chat: Chat, complete: string -> Completion)
    requires Classify(msg.body) !in {Some(TagAllCmd), Some(CrimsonCmd), Some(MuteCmd), Some(UnmuteCmd)}
    ensures ChatBranches(st, msg, chat, complete) == Some(st)
  {
    ClassifyFired(TagAllCmd, msg.body);
    ClassifyFired(CrimsonCmd, msg.body);
    ClassifyFired(MuteCmd, msg.body);
    ClassifyFired(UnmuteCmd, msg.body);
  }

  /** A body classified as neither `/game` nor `/guess` opens and resolves no round. */
  lemma RoundIdle(st: State, msg: Message, roll: int)
    requires 1 <= roll <= 10
    requires Classify(msg.body) != Some(GameCmd) && Classify(msg.body) != Some(GuessCmd)
    ensures GuessStep(GameStep(st, msg, roll), msg) == st
  {
    ClassifyFired(GameCmd, msg.body);
    ClassifyFired(GuessCmd, msg.body);
  }

  /** At most one branch runs: the handler's sequence of independent `if`s
      does exactly what the single dispatch on `Classify` does. */
  lemma HandleIsExclusive(st: State, msg: Message, chat: Chat, roll: int, complete: string -> Completion)
    requires 1 <= roll <= 10
    ensures Handle(st, msg, chat, roll, complete) == Exclusive(st, msg, chat, roll, complete)
  {
    var body := msg.body;
    var c := Classify(body);
    var s2 := ProfileStep(ChatterStep(st, msg), msg);
    if c == Some(Chatter) {
      ProfileIdle(ChatterStep(st, msg), msg);
      ChatBranchesIdle(s2, msg, chat, complete);
      RoundIdle(s2, msg, roll);
    } else {
      ChatterIdle(st, msg);
      if c == Some(ProfileCmd) {
        ChatBranchesIdle(s2, msg, chat, complete);
        RoundIdle(s2, msg, roll);
      } else {
        ProfileIdle(st, msg);
        assert s2 == st;
        ChatTail(st, msg, chat, roll, complete);
      }
    }
  }

  /** The part of `HandleIsExclusive` after the chat award and `/profile`. */
  lemma ChatTail(st: State, msg: Message, chat: Chat, roll: int, complete: string -> Completion)
    requires 1 <= roll <= 10
    requires Classify(msg.body) != Some(Chatter) && Classify(msg.body) != Some(ProfileCmd)
    ensures Exclusive(st, msg, chat, roll, complete) == Tail(st, msg, chat, roll, complete)
  {
    var c := Classify(msg.body);
    if c == Some(GameCmd) || c == Some(GuessCmd) {
      RoundTail(st, msg, chat, roll, complete);
    } else if c == Some(CrimsonCmd) {
      CrimsonTail(st, msg, chat, roll, complete);
    } else {
      PlainTail(st, msg, chat, roll, complete);
    }
  }

  lemma RoundTail(st: State, msg: Message, chat: Chat, roll: int, complete: string -> Completion)
    requires 1 <= roll <= 10
    requires Classify(msg.body) == Some(GameCmd) || Classify(msg.body) == Some(GuessCmd)
    ensures Exclusive(st, msg, chat, roll, complete) == Tail(st, msg, chat, roll, complete)
  {
    var body := msg.body;
    ChatBranchesIdle(st, msg, chat, complete);
    if Classify(body) == Some(GameCmd) {
      ClassifyFired(GuessCmd, body);
      assert GuessStep(StartGame(st, msg.from, roll), msg) == StartGame(st, msg.from, roll);
    } else {
      ClassifyFired(GameCmd, body);
    }
  }

  lemma CrimsonTail(st: State, msg: Message, chat: Chat, roll: int, complete: string -> Completion)
    requires 1 <= roll <= 10
    requires Classify(msg.body) == Some(CrimsonCmd)
    ensures Exclusive(st, msg, chat, roll, complete) == Tail(st, msg, chat, roll, complete)
  {
    var body := msg.body;
    ReplacePrefix(body, "/crimson ");
    ClassifyFired(TagAllCmd, body);
    ClassifyFired(MuteCmd, body);
    ClassifyFired(UnmuteCmd, body);
    assert TagAllStep(st, body, chat) == st;
    var r := ChatBranches(st, msg, chat, complete);
    if r.Some? {
      assert MuteStep(r.value, body, chat) == r.value;
      RoundIdle(r.value, msg, roll);
    }
  }

  lemma PlainTail(st: State, msg: Message, chat: Chat, roll: int, complete: string -> Completion)
    requires 1 <= roll <= 10
    requires Classify(msg.body) in {None, Some(TagAllCmd), Some(MuteCmd), Some(UnmuteCmd)}
    ensures Exclusive(st, msg, chat, roll, complete) == Tail(st, msg, chat, roll, complete)
  {
    var body := msg.body;
    ClassifyFired(CrimsonCmd, body);
    ClassifyFired(TagAllCmd, body);
    ClassifyFired(MuteCmd, body);
    ClassifyFired(UnmuteCmd, body);
    var s6 := UnmuteStep(MuteStep(TagAllStep(st, body, chat), body, chat), body, chat);
    assert ChatBranches(st, msg, chat, complete) == Some(s6);
    RoundIdle(s6, msg, roll);
  }

  /** A message that is not a command earns exactly 5 XP through `addXP` and
      does nothing else. */
  lemma ChatterEarnsFive(st: State, msg: Message, chat: Chat, roll: int, complete: string -> Completion)
    requires 1 <= roll <= 10
    requires Fires(Chatter, msg.body)
    ensures Handle(st, msg, chat, roll, complete) == AddXP(st, msg.from, 5)
  {
    HandleIsExclusive(st, msg, chat, roll, complete);
    ClassifyFired(Chatter, msg.body);
  }

  /** A command earns no chat XP: apart from a correct `/guess`, no command
      changes anyone's `xp` or `level`, and an entry a command creates (only
      `/game` does) has no `xp`. */
  lemma CommandsEarnNothing(st: State, msg: Message, chat: Chat, roll: int, complete: string -> Completion)
    requires 1 <= roll <= 10
    requires StartsWith(msg.body, "/") && !Fires(GuessCmd, msg.body)
    ensures var r := Handle(st, msg, chat, roll, complete);
      && (forall u :: u in st.xpData ==>
            u in r.xpData && r.xpData[u].xp == st.xpData[u].xp && r.xpData[u].level == st.xpData[u].level)
      && (forall u :: u in r.xpData && u !in st.xpData ==> r.xpData[u].xp == Undefined)
  {
    HandleIsExclusive(st, msg, chat, roll, complete);
    FiresExactly(msg.body);
    var c := Classify(msg.body);
    assert c != Some(Chatter) && c != Some(GuessCmd) by {
      assert !Fires(Chatter, msg.body) && !Fires(GuessCmd, msg.body);
    }
    var r := Exclusive(st, msg, chat, roll, complete);
    if c == Some(GameCmd) {
      assert r == StartGame(st, msg.from, roll);
    } else {
      assert r.xpData == st.xpData;
    }
  }

  /** `/profile` only reports: the store and the save count stay as they were. */
  lemma ProfileOnlyReports(st: State, sender: string, chat: Chat, roll: int, complete: string -> Completion)
    requires 1 <= roll <= 10
    ensures Handle(st, Message(sender, "/profile"), chat, roll, complete) == Profile(st, sender)
  {
    HandleIsExclusive(st, Message(sender, "/profile"), chat, roll, complete);
    ClassifyFired(ProfileCmd, "/profile");
  }

  /** `/tagall` outside a group, or where the client gives no participant
      list, does nothing at all; in a group it makes the one `sendMessage`
      call to the chat, with one mention per participant in order. */
  lemma TagAllOnlyInGroups(st: State, sender: string, chat: Chat, roll: int, complete: string -> Completion)
    requires 1 <= roll <= 10
    ensures var r := Handle(st, Message(sender, "/tagall"), chat, roll, complete);
      && (!chat.isGroup || chat.participants.None? ==> r == st)
      && (chat.isGroup && chat.participants.Some? ==>
            var ps := chat.participants.value;
            r == st.(outbox := st.outbox + [Send(chat.id, TagAllText(ps), TagAllMentions(ps))]))
  {
    HandleIsExclusive(st, Message(sender, "/tagall"), chat, roll, complete);
    ClassifyFired(TagAllCmd, "/tagall");
  }

  /** `/crimson p` forwards exactly `p` to the completion collaborator and
      replies to the sender with its answer (or `...`) after the blood-drop
      marker; a rejected completion ends the handler with nothing sent. The
      store is not touched. */
  lemma CrimsonForwardsPrompt(st: State, sender: string, prompt: string, chat: Chat, roll: int, complete: string -> Completion)
    requires 1 <= roll <= 10
    ensures var r := Handle(st, Message(sender, "/crimson " + prompt), chat, roll, complete);
      match complete(prompt)
      case Failed => r == st
      case Answered(c) => r == st.(outbox := st.outbox + [Send(sender, "\U{1FA78} " + ReplyText(c), [])])
  {
    var body := "/crimson " + prompt;
    assert body[..9] == "/crimson " && body[9..] == prompt;
    HandleIsExclusive(st, Message(sender, body), chat, roll, complete);
    ClassifyFired(CrimsonCmd, body);
  }

  /** `/guess ...` from a sender without an open round is silent: nothing
      changes and nothing is sent. */
  lemma GuessWithoutRoundIsSilent(st: State, msg: Message, chat: Chat, roll: int, complete: string -> Completion)
    requires 1 <= roll <= 10
    requires Fires(GuessCmd, msg.body) && !HasOpenRound(st.xpData, msg.from)
    ensures Handle(st, msg, chat, roll, complete) == st
  {
    GuessOnlyResolves(st, msg, chat, roll, complete);
  }

  /** `/game` from `sender`, then `/guess` with the rolled number. */
  function GameThenGuess(st: State, sender: string, chat: Chat, roll: int, complete: string -> Completion): State
    requires 1 <= roll <= 10
  {
    var s1 := Handle(st, Message(sender, "/game"), chat, roll, complete);
    Handle(s1, Message(sender, "/guess " + IntToString(roll)), chat, roll, complete)
  }

  /** `/game` runs only the round opening. */
  lemma GameOnlyStarts(st: State, sender: string, chat: Chat, roll: int, complete: string -> Completion)
    requires 1 <= roll <= 10
    ensures Handle(st, Message(sender, "/game"), chat, roll, complete) == StartGame(st, sender, roll)
  {
    HandleIsExclusive(st, Message(sender, "/game"), chat, roll, complete);
    ClassifyFired(GameCmd, "/game");
  }

  /** A body starting with `/guess` runs only the guess resolution. */
  lemma GuessOnlyResolves(st: State, msg: Message, chat: Chat, roll: int, complete: string -> Completion)
    requires 1 <= roll <= 10
    requires Fires(GuessCmd, msg.body)
    ensures Handle(st, msg, chat, roll, complete) == ResolveGuess(st, msg.from, GuessArgument(msg.body))
  {
    HandleIsExclusive(st, msg, chat, roll, complete);
    ClassifyFired(GuessCmd, msg.body);
  }

  lemma GameThenGuessResolves(st: State, sender: string, chat: Chat, roll: int, complete: string -> Completion)
    requires 1 <= roll <= 10
    ensures var s1 := StartGame(st, sender, roll);
      GameThenGuess(st, sender, chat, roll, complete) == ResolveGuess(s1, sender, Some(roll))
  {
    GameOnlyStarts(st, sender, chat, roll, complete);
    var s1 := StartGame(st, sender, roll);
    var guess := "/guess " + IntToString(roll);
    assert guess[..6] == "/guess";
    GuessArgumentOfNumber(roll);
    GuessOnlyResolves(s1, Message(sender, guess), chat, roll, complete);
  }

  /** `/game` then `/guess` with the rolled number: a sender with a complete
      entry gains 20 XP and the round is closed, so a further `/guess` of any
      kind is silent. */
  lemma GameThenCorrectGuess(st: State, sender: string, chat: Chat, roll: int, later: string, complete: string -> Completion)
    requires 1 <= roll <= 10
    requires sender in st.xpData && Complete(st.xpData[sender])
    requires StartsWith(later, "/guess")
    ensures var s2 := GameThenGuess(st, sender, chat, roll, complete);
      && s2.xpData[sender].xp == Int(st.xpData[sender].xp.i + 20)
      && s2.xpData[sender].game == None
      && Handle(s2, Message(sender, later), chat, roll, complete) == s2
  {
    GameThenGuessResolves(st, sender, chat, roll, complete);
    var s2 := GameThenGuess(st, sender, chat, roll, complete);
    GuessWithoutRoundIsSilent(s2, Message(sender, later), chat, roll, complete);
  }

  /** The record `/game` creates for a sender without one has no `xp` or
      `level`, so winning that round leaves `xp` as `NaN` and `level`
      undefined, and every later chat award keeps `xp` at `NaN`. */
  lemma NewcomerWinIsNaN(st: State, sender: string, chat: Chat, roll: int, chatter: string, complete: string -> Completion)
    requires 1 <= roll <= 10
    requires sender !in st.xpData
    requires Fires(Chatter, chatter)
    ensures var s2 := GameThenGuess(st, sender, chat, roll, complete);
      var s3 := Handle(s2, Message(sender, chatter), chat, roll, complete);
      && s2.xpData[sender] == Record(NaN, Undefined, None)
      && s3.xpData[sender] == Record(NaN, Undefined, None)
  {
    GameThenGuessResolves(st, sender, chat, roll, complete);
    var s2 := GameThenGuess(st, sender, chat, roll, complete);
    ChatterEarnsFive(s2, Message(sender, chatter), chat, roll, complete);
  }
}
