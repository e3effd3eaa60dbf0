/** The progression store: the global `xpData` map from user address to
    `{ xp, level, game? }`, the three operations that change it (`addXP`, opening
    a guessing round, resolving a guess) and the profile read. Each operation is a
    function from the bot's whole state to the next one; the `Bot` class in module
    `Runtime` performs the same steps in place. */
module Progression {
  import opened Js
  import opened Transport

  /** One user's entry. `xp` and `level` are `Undefined` when the entry was made
      by `/game` (which stores `{}`); `game` is the open round's target. */
  datatype Record = Record(xp: Num, level: Num, game: Option<int>)

  type Store = map<string, Record>

  /** Everything one message can change: the store, the outbound calls made so
      far, and how many times the store has been written to disk (`saveXP`). */
  datatype State = State(xpData: Store, outbox: seq<Effect>, saves: nat)

  /** `{ xp: 0, level: 1 }`: the entry `addXP` creates, and what `/profile` shows
      for a user without one. */
  const Starter := Record(Int(0), Int(1), None)

  /** `{}`: the entry `/game` creates. */
  const Bare := Record(Undefined, Undefined, None)

  /** An entry whose `xp` and `level` are both numbers. */
  predicate Complete(r: Record)
  {
    r.xp.Int? && r.level.Int?
  }

  /** The entry `addXP` starts from: the stored one, or `Starter`. */
  function EntryOrStarter(store: Store, user: string): Record
  {
    if user in store then store[user] else Starter
  }

  function LevelUpText(level: Num): string
  {
    "\U{1F199} *You leveled up!* Level " + NumToString(level)
  }

  /** `addXP(user, amount)`: create the entry if missing, add `amount` to `xp`,
      and if the new `xp` reaches `level * 100` raise `level` once and tell the
      user; then save. */
  function AddXP(st: State, user: string, amount: int): (r: State)
    ensures user in r.xpData
    ensures r.xpData - {user} == st.xpData - {user}
    ensures r.saves == st.saves + 1
    ensures st.outbox <= r.outbox
    ensures var before, after := EntryOrStarter(st.xpData, user), r.xpData[user];
      var leveled := after.level != before.level;
      && after.game == before.game
      && after.xp == (if before.xp.Int? then Int(before.xp.i + amount) else NaN)
      && (leveled ==> before.level.Int? && after.level == Int(before.level.i + 1))
      && (leveled <==> Complete(before) && before.xp.i + amount >= before.level.i * 100)
      && r.outbox == st.outbox + (if leveled then [Send(user, LevelUpText(after.level), [])] else [])
  {
    var entry := EntryOrStarter(st.xpData, user);
    var added := entry.(xp := Plus(entry.xp, amount));
    var nextLevel := Times(added.level, 100);
    if AtLeast(added.xp, nextLevel) then
      var raised := added.(level := Increment(added.level));
      State(st.xpData[user := raised], st.outbox + [Send(user, LevelUpText(raised.level), [])], st.saves + 1)
    else
      State(st.xpData[user := added], st.outbox, st.saves + 1)
  }

  /** A user without an entry ends with exactly the awarded XP and at most
      level 2, however large the award: 250 XP gives level 2, not 3. */
  lemma AddXPToNewcomer(st: State, user: string, amount: int)
    requires user !in st.xpData
    ensures var e := AddXP(st, user, amount).xpData[user];
      e == Record(Int(amount), Int(if amount >= 100 then 2 else 1), None)
  {
  }

  function Sum(amounts: seq<int>): int
  {
    if amounts == [] then 0 else Sum(amounts[..|amounts| - 1]) + amounts[|amounts| - 1]
  }

  /** Awards made one after another, in order. */
  function AddXPAll(st: State, user: string, amounts: seq<int>): (r: State)
    ensures r.xpData - {user} == st.xpData - {user}
    ensures r.saves == st.saves + |amounts|
    ensures st.outbox <= r.outbox
    ensures amounts != [] ==> user in r.xpData
  {
    if amounts == [] then st
    else AddXP(AddXPAll(st, user, amounts[..|amounts| - 1]), user, amounts[|amounts| - 1])
  }

  /** Over any run of awards to one user with a complete entry (or none), `xp`
      grows by exactly their sum and `level` by at most one per award; the open
      round, every other user and the save count (one per award) follow. */
  lemma {:induction false} AddXPAllSum(st: State, user: string, amounts: seq<int>)
    requires Complete(EntryOrStarter(st.xpData, user))
    ensures var r, before := AddXPAll(st, user, amounts), EntryOrStarter(st.xpData, user);
      && (amounts != [] ==> user in r.xpData)
      && var after := EntryOrStarter(r.xpData, user);
      && Complete(after)
      && after.xp.i == before.xp.i + Sum(amounts)
      && before.level.i <= after.level.i <= before.level.i + |amounts|
      && after.game == before.game
      && r.xpData - {user} == st.xpData - {user}
      && r.saves == st.saves + |amounts|
  {
    if amounts != [] {
      AddXPAllSum(st, user, amounts[..|amounts| - 1]);
    }
  }

  function GameText(): string
  {
    "\U{1F3B2} Guess a number between 1-10. Reply with /guess <number>"
  }

  /** The `/game` branch with the die already rolled: announce the round, create
      the entry as `{}` if missing, store the target, save. */
  function StartGame(st: State, user: string, roll: int): (r: State)
    requires 1 <= roll <= 10
    ensures r.xpData.Keys == st.xpData.Keys + {user}
    ensures r.xpData - {user} == st.xpData - {user}
    ensures r.xpData[user].game == Some(roll)
    ensures user in st.xpData ==>
      r.xpData[user].xp == st.xpData[user].xp && r.xpData[user].level == st.xpData[user].level
    ensures user !in st.xpData ==> r.xpData[user] == Bare.(game := Some(roll))
    ensures r.outbox == st.outbox + [Send(user, GameText(), [])]
    ensures r.saves == st.saves + 1
  {
    var entry := if user in st.xpData then st.xpData[user] else Bare;
    State(st.xpData[user := entry.(game := Some(roll))], st.outbox + [Send(user, GameText(), [])], st.saves + 1)
  }

  /** `xpData[user]?.game` is truthy: an entry with a non-zero target. */
  predicate HasOpenRound(store: Store, user: string)
  {
    user in store && store[user].game.Some? && store[user].game.value != 0
  }

  function CorrectText(): string
  {
    "\U{1F389} Correct! +20 XP"
  }

  function WrongText(target: int): string
  {
    "\U{274C} Nope! It was " + IntToString(target)
  }

  /** The `/guess` branch with the argument already parsed (`None` is `NaN`).
      Without an open round nothing happens. Otherwise a matching guess is
      congratulated and earns 20 XP through `addXP`, any other guess is told the
      target; either way the round is closed and the store saved. */
  function ResolveGuess(st: State, user: string, guess: Option<int>): (r: State)
    ensures r.xpData - {user} == st.xpData - {user}
    ensures st.outbox <= r.outbox
    ensures !HasOpenRound(st.xpData, user) ==> r == st
    ensures HasOpenRound(st.xpData, user) ==>
      var before, target := st.xpData[user], st.xpData[user].game.value;
      && user in r.xpData
      && r.xpData[user].game == None
      && r.xpData - {user} == st.xpData - {user}
      && (guess == Some(target) ==>
            var after := r.xpData[user];
            && after.xp == Plus(before.xp, 20)
            && (after.level == before.level || after.level == Increment(before.level))
            && (after.level != before.level <==> Complete(before) && before.xp.i + 20 >= before.level.i * 100)
            && (after.level != before.level ==> after.level == Int(before.level.i + 1))
            && (after.level == before.level ==> r.outbox == st.outbox + [Send(user, CorrectText(), [])])
            && (after.level != before.level ==>
                  r.outbox == st.outbox + [Send(user, CorrectText(), []), Send(user, LevelUpText(after.level), [])])
            && r.saves == st.saves + 2)
      && (guess != Some(target) ==>
            && r.xpData[user] == before.(game := None)
            && r.outbox == st.outbox + [Send(user, WrongText(target), [])]
            && r.saves == st.saves + 1)
  {
    if !HasOpenRound(st.xpData, user) then st
    else
      var target := st.xpData[user].game.value;
      var judged :=
        if guess == Some(target) then
          AddXP(st.(outbox := st.outbox + [Send(user, CorrectText(), [])]), user, 20)
        else
          st.(outbox := st.outbox + [Send(user, WrongText(target), [])]);
      judged.(xpData := judged.xpData[user := judged.xpData[user].(game := None)], saves := judged.saves + 1)
  }

  /** The text `/profile` sends for an entry's level and XP. */
  function ProfileText(level: Num, xp: Num): string
  {
    "\U{1F4DC} *Kurimuzon\U{2666}\U{FE0F} Profile*\nLevel: " + NumToString(level) + "\nXP: " + NumToString(xp)
  }

  /** The `/profile` branch: report the sender's entry, or level 1 and 0 XP when
      there is none. The store is only read. */
  function Profile(st: State, user: string): (r: State)
    ensures r.xpData == st.xpData && r.saves == st.saves
    ensures user !in st.xpData ==>
      r.outbox == st.outbox + [Send(user, "\U{1F4DC} *Kurimuzon\U{2666}\U{FE0F} Profile*\nLevel: 1\nXP: 0", [])]
    ensures user in st.xpData ==>
      r.outbox == st.outbox + [Send(user, ProfileText(st.xpData[user].level, st.xpData[user].xp), [])]
  {
    var entry := EntryOrStarter(st.xpData, user);
    assert NumToString(Int(1)) == "1" && NumToString(Int(0)) == "0";
    assert ProfileText(Int(1), Int(0)) == "\U{1F4DC} *Kurimuzon\U{2666}\U{FE0F} Profile*\nLevel: 1\nXP: 0";
    st.(outbox := st.outbox + [Send(user, ProfileText(entry.level, entry.xp), [])])
  }
}
