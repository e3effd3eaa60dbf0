/** The running bot: the process-wide `xpData` object, the client's outbound
    calls and the `saveXP` writes, updated in place the way `index.js` does it.
    Each method is proved to leave exactly the state the matching function of
    `Progression` or `Dispatch` describes, so every lemma about those functions
    holds of the bot. */
module Runtime {
  import opened Js
  import opened Transport
  import opened Progression
  import opened Dispatch

  class Bot {
    var xpData: Store
    var outbox: seq<Effect>
    var saves: nat

    function Snapshot(): State
      reads this
    {
      State(xpData, outbox, saves)
    }

    /** Start-up with the entries read from disk (or none). */
    constructor (loaded: Store)
      ensures Snapshot() == State(loaded, [], 0)
    {
      xpData := loaded;
      outbox := [];
      saves := 0;
    }

    /** `saveXP()`: the file write itself is not modelled, only that it happens. */
    method SaveXP()
      modifies this`saves
      ensures saves == old(saves) + 1
    {
      saves := saves + 1;
    }

    method Tell(to: string, text: string)
      modifies this`outbox
      ensures outbox == old(outbox) + [Send(to, text, [])]
    {
      outbox := outbox + [Send(to, text, [])];
    }

    /** `addXP(user, amount)`. */
    method AddXP(user: string, amount: int)
      modifies this
      ensures Snapshot() == Progression.AddXP(old(Snapshot()), user, amount)
    {
      if user !in xpData {
        xpData := xpData[user := Starter];
      }
      xpData := xpData[user := xpData[user].(xp := Plus(xpData[user].xp, amount))];
      var nextLevel := Times(xpData[user].level, 100);
      if AtLeast(xpData[user].xp, nextLevel) {
        xpData := xpData[user := xpData[user].(level := Increment(xpData[user].level))];
        Tell(user, LevelUpText(xpData[user].level));
      }
      SaveXP();
    }

    /** The `/game` branch, with `number` the die roll. */
    method StartGame(sender: string, number: int)
      requires 1 <= number <= 10
      modifies this
      ensures Snapshot() == Progression.StartGame(old(Snapshot()), sender, number)
    {
      Tell(sender, GameText());
      if sender !in xpData {
        xpData := xpData[sender := Bare];
      }
      xpData := xpData[sender := xpData[sender].(game := Some(number))];
      SaveXP();
    }

    /** The `/guess` branch. */
    method Guess(sender: string, body: string)
      modifies this
      ensures Snapshot() == ResolveGuess(old(Snapshot()), sender, GuessArgument(body))
    {
      var guess := GuessArgument(body);
      if HasOpenRound(xpData, sender) {
        var target := xpData[sender].game.value;
        if guess == Some(target) {
          Tell(sender, CorrectText());
          AddXP(sender, 20);
        } else {
          Tell(sender, WrongText(target));
        }
        xpData := xpData[sender := xpData[sender].(game := None)];
        SaveXP();
      }
    }

    /** The `/tagall`, `/crimson `, `/mute` and `/unmute` branches of the
        handler. `stopped` is set when the awaited completion rejects, which
        ends the handler before anything is sent. */
    method ChatCommands(msg: Message, chat: Chat, complete: string -> Completion) returns (stopped: bool)
      modifies this
      ensures stopped <==> ChatBranches(old(Snapshot()), msg, chat, complete).None?
      ensures stopped ==> Snapshot() == old(Snapshot())
      ensures !stopped ==> Some(Snapshot()) == ChatBranches(old(Snapshot()), msg, chat, complete)
    {
      var sender := msg.from;
      var body := msg.body;
      ghost var s2 := Snapshot();
      stopped := false;

      if body == "/tagall" && chat.isGroup && chat.participants.Some? {
        var text, mentions := BuildTagAll(chat.participants.value);
        assert text == TagAllText(chat.participants.value);
        assert mentions == TagAllMentions(chat.participants.value);
        outbox := outbox + [Send(chat.id, text, mentions)];
      }
      assert Snapshot() == TagAllStep(s2, body, chat);

      if StartsWith(body, "/crimson ") {
        assert body != "/tagall";
        var prompt := ReplaceFirst(body, "/crimson ", "");
        var answer := complete(prompt);
        if answer.Failed? {
          stopped := true;
          return;
        }
        Tell(sender, "\U{1FA78} " + ReplyText(answer.content));
      }
      ghost var s4 := Snapshot();

      if body == "/mute" && chat.isGroup {
        outbox := outbox + [Mute(chat.id)];
        Tell(chat.id, MutedText());
      }
      assert Snapshot() == MuteStep(s4, body, chat);

      if body == "/unmute" && chat.isGroup {
        outbox := outbox + [Unmute(chat.id)];
        Tell(chat.id, UnmutedText());
      }
      assert Snapshot() == UnmuteStep(MuteStep(s4, body, chat), body, chat);
    }

    /** The `message` handler. `roll` is the value `Math.random` gives `/game`
        and `complete` the completion collaborator; a rejected completion
        ends the handler where the source's `await` would throw. */
    method OnMessage(msg: Message, chat: Chat, roll: int, complete: string -> Completion)
      requires 1 <= roll <= 10
      modifies this
      ensures Snapshot() == Handle(old(Snapshot()), msg, chat, roll, complete)
    {
      var sender := msg.from;
      var body := msg.body;
      ghost var s0 := Snapshot();

      if !StartsWith(body, "/") {
        AddXP(sender, 5);
      }
      assert Snapshot() == ChatterStep(s0, msg);

      if body == "/profile" {
        var entry := if sender in xpData then xpData[sender] else Starter;
        Tell(sender, ProfileText(entry.level, entry.xp));
      }
      ghost var s2 := Snapshot();
      assert s2 == ProfileStep(ChatterStep(s0, msg), msg);

      var stopped := ChatCommands(msg, chat, complete);
      if stopped {
        return;
      }
      ghost var s6 := Snapshot();

      if body == "/game" {
        StartGame(sender, roll);
      }
      assert Snapshot() == GameStep(s6, msg, roll);

      if StartsWith(body, "/guess") {
        Guess(sender, body);
      }
    }
  }
}
