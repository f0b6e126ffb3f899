/** Which inbound messages `on_message` ignores. A message is ignored when
    any of five rules holds; `on_message` tests them in a fixed order and
    stops at the first that holds. Two versions are kept: the filter as
    written, whose mention rule never fires, and the intended filter. */
module MessageFilter {
  import opened Outcomes
  import opened Discord

  /** The channel kinds whose messages are relayed. */
  const RelayedKinds: set<ChannelType> := {Text, PublicThread, PrivateThread}

  /** The five rules, in the order `on_message` tests them. */
  datatype Rule = FromSelf | MentionsSelf | Unrelayed | FromBot | Command

  function Rank(rule: Rule): nat {
    match rule
    case FromSelf => 0
    case MentionsSelf => 1
    case Unrelayed => 2
    case FromBot => 3
    case Command => 4
  }

  /** Some mentioned user is the bot's own account. */
  predicate BotMentioned(bot: User, mentions: seq<User>) {
    exists i :: 0 <= i < |mentions| && mentions[i].id == bot.id
  }

  /** Each rule as intended. `bot` is the bot's own account and `prefix`
      the configured command prefix. */
  predicate Holds(rule: Rule, bot: User, prefix: string, m: Message) {
    match rule
    case FromSelf => m.author.id == bot.id
    case MentionsSelf => BotMentioned(bot, m.mentions)
    case Unrelayed => m.channel.kind !in RelayedKinds
    case FromBot => m.author.bot
    case Command => prefix <= m.content
  }

  /** The intended filter: the message is ignored when any rule holds. */
  predicate Ignored(bot: User, prefix: string, m: Message) {
    || m.author.id == bot.id
    || BotMentioned(bot, m.mentions)
    || m.channel.kind !in RelayedKinds
    || m.author.bot
    || prefix <= m.content
  }

  /** The rule the intended filter's short-circuit test stops at, if any. */
  function FirstRule(bot: User, prefix: string, m: Message): (r: Option<Rule>)
    ensures r.None? <==> !Ignored(bot, prefix, m)
    ensures r.Some? ==> Holds(r.value, bot, prefix, m)
    ensures r.Some? ==> forall q :: Rank(q) < Rank(r.value) ==> !Holds(q, bot, prefix, m)
  {
    if Holds(FromSelf, bot, prefix, m) then Some(FromSelf)
    else if Holds(MentionsSelf, bot, prefix, m) then Some(MentionsSelf)
    else if Holds(Unrelayed, bot, prefix, m) then Some(Unrelayed)
    else if Holds(FromBot, bot, prefix, m) then Some(FromBot)
    else if Holds(Command, bot, prefix, m) then Some(Command)
    else None
  }

  /** The mention rule as written: the bot's integer id looked up in the
      list of mentioned user objects. Python compares an integer with a
      user object through the user type's equality, which accepts only
      another user, so no element ever matches and the lookup is false
      whatever the list holds. */
  predicate BotIdInMentionsAsWritten(id: nat, mentions: seq<User>) {
    false
  }

  /** The filter as `on_message` writes it. */
  predicate IgnoredAsWritten(bot: User, prefix: string, m: Message) {
    || m.author.id == bot.id
    || BotIdInMentionsAsWritten(bot.id, m.mentions)
    || m.channel.kind !in RelayedKinds
    || m.author.bot
    || prefix <= m.content
  }

  /** The filter as written has four effective rules: a message is ignored
      exactly when a rule other than the mention rule holds of it. */
  lemma AsWrittenIgnoresByFourRules(bot: User, prefix: string, m: Message)
    ensures IgnoredAsWritten(bot, prefix, m) <==> exists rule :: rule != MentionsSelf && Holds(rule, bot, prefix, m)
  {
    if IgnoredAsWritten(bot, prefix, m) {
      var rule :=
        if m.author.id == bot.id then FromSelf
        else if m.channel.kind !in RelayedKinds then Unrelayed
        else if m.author.bot then FromBot
        else Command;
      assert rule != MentionsSelf && Holds(rule, bot, prefix, m);
    }
  }

  /** A human's message in a text channel that mentions the bot passes the
      filter as written, though the mention rule was meant to stop it. */
  lemma MentionRuleAsWrittenMisses()
    ensures var bot := User(7, true);
            var m := Message(User(8, false), [bot], Channel(1, Text), "hello");
            Ignored(bot, "!", m) && !IgnoredAsWritten(bot, "!", m)
  {
    var bot := User(7, true);
    var m := Message(User(8, false), [bot], Channel(1, Text), "hello");
    assert m.mentions[0].id == bot.id;
    assert !("!" <= m.content) by { assert m.content[0] != '!'; }
  }

  /** The filter as written ignores fewer messages than the intended one,
      and the messages it lets through in excess are exactly those that
      mention the bot and break no other rule. */
  lemma AsWrittenDiffersOnlyOnMentions(bot: User, prefix: string, m: Message)
    ensures IgnoredAsWritten(bot, prefix, m) ==> Ignored(bot, prefix, m)
    ensures Ignored(bot, prefix, m) && !IgnoredAsWritten(bot, prefix, m) <==>
              BotMentioned(bot, m.mentions) && forall rule :: rule != MentionsSelf ==> !Holds(rule, bot, prefix, m)
  {
    AsWrittenIgnoresByFourRules(bot, prefix, m);
  }
}
