/** The cog: a two-state availability flag, the probe refresh that sets it,
    the start-up probe, and the inbound-message handler. One invocation of a
    handler is one step: it takes the current cog and the outcomes the
    remote service supplies, and returns the new cog, the texts sent to the
    originating channel, the chat requests issued, whether a probe ran, and
    the error the handler ends in, if any. */
module AiCog {
  import opened Outcomes
  import opened Discord
  import Decimal
  import MessageFilter
  import AnythingLlm

  datatype AiState = Offline | Online

  datatype Cog = Cog(api: AnythingLlm.Client, state: AiState)

  /** The error the handler ends in when it reads a reply that was never bound. */
  datatype Fault = UnboundReply

  /** The remote outcomes one handler invocation may observe: the chat
      endpoint's answer and, should the handler re-probe, the probes' answers. */
  datatype World = World(chat: AnythingLlm.ChatResponse, reprobe: AnythingLlm.ProbeOutcomes)

  datatype Reaction = Reaction(
    cog: Cog,
    sent: seq<string>,
    chatCalls: seq<AnythingLlm.Request>,
    probed: bool,
    fault: Option<Fault>)

  const OfflineReply := "AI is offline. Please try again later."
  const ChatFailedReply := "Failed to chat. Please try again later."

  /** A freshly constructed cog: its client uses the configured host, key
      and workspace slug, and it is offline until a probe passes. */
  function NewCog(host: string, apiKey: string, workspaceSlug: string): (cog: Cog)
    ensures cog.state == Offline
    ensures cog.api == AnythingLlm.Client(host, apiKey, workspaceSlug)
  {
    Cog(AnythingLlm.NewClient(host, apiKey, Some(workspaceSlug)), Offline)
  }

  /** Refresh: run the probes; online exactly when they all pass, offline
      otherwise, whatever the state was before. */
  function Refresh(cog: Cog, p: AnythingLlm.ProbeOutcomes): (r: Cog)
    ensures r.state == Online <==> p.root == 200 && p.auth == 200 && p.listing.status == 200
    ensures r.api == AnythingLlm.TestApi(cog.api, p).client
  {
    var report := AnythingLlm.TestApi(cog.api, p);
    Cog(report.client, if report.passed then Online else Offline)
  }

  /** Start-up probe: a pass sets the cog online; a failure leaves the state
      as it was. */
  function CogLoad(cog: Cog, p: AnythingLlm.ProbeOutcomes): (r: Cog)
    ensures r.state == Online <==> (p.root == 200 && p.auth == 200 && p.listing.status == 200) || cog.state == Online
    ensures r.api == AnythingLlm.TestApi(cog.api, p).client
  {
    var report := AnythingLlm.TestApi(cog.api, p);
    Cog(report.client, if report.passed then Online else cog.state)
  }

  /** Start-up and refresh agree on a new cog: a failed start-up leaves it
      offline. They differ only on a cog already online. */
  lemma CogLoadOnFreshCog(host: string, apiKey: string, workspaceSlug: string, p: AnythingLlm.ProbeOutcomes)
    ensures var initial := NewCog(host, apiKey, workspaceSlug);
            && CogLoad(initial, p) == Refresh(initial, p)
            && (CogLoad(initial, p).state == Online <==> AnythingLlm.TestApi(initial.api, p).passed)
  {
  }

  /** The state a refresh sets depends only on the probes, not on history. */
  lemma RefreshForgetsHistory(a: Cog, b: Cog, p: AnythingLlm.ProbeOutcomes)
    requires a.api == b.api
    ensures Refresh(a, p) == Refresh(b, p)
  {
  }

  /** Refreshing twice, the second time seeing the same outcomes as the
      first, ends where refreshing once did. */
  lemma RefreshIdempotent(cog: Cog, p: AnythingLlm.ProbeOutcomes)
    ensures Refresh(Refresh(cog, p), p) == Refresh(cog, p)
  {
    AnythingLlm.TestApiIdempotent(cog.api, p);
  }

  /** The chat session of a channel: the decimal rendering of its id. */
  function SessionId(channel: Channel): (s: string)
    ensures Decimal.Canonical(s)
    ensures channel.id == 0 ==> s == "0"
    ensures channel.id > 0 ==> s[0] != '0'
    ensures Decimal.ToNat(s) == channel.id
  {
    Decimal.RoundTrip(channel.id);
    Decimal.FromNat(channel.id)
  }

  /** Distinct channels never share a chat session. */
  lemma SessionIdsDistinct(a: Channel, b: Channel)
    ensures SessionId(a) == SessionId(b) <==> a.id == b.id
  {
    Decimal.Injective(a.id, b.id);
  }

  /** The handler `on_message` as written. A message the written filter
      ignores does nothing. When offline it answers with the offline reply
      and re-probes. When online it chats; a reply is relayed, while a
      refused chat sends the failure reply, re-probes, and then fails
      reading the reply it never received. */
  function OnMessage(cog: Cog, bot: User, prefix: string, m: Message, w: World): (r: Reaction)
    ensures |r.sent| == 0 <==> MessageFilter.IgnoredAsWritten(bot, prefix, m)
    ensures |r.sent| <= 1
    ensures !r.probed ==> r.cog == cog
    ensures |r.chatCalls| > 0 ==> cog.state == Online
    ensures r.fault.Some? <==> !MessageFilter.IgnoredAsWritten(bot, prefix, m) && cog.state == Online && w.chat.status != 200
    ensures r.probed ==> r.cog == Refresh(cog, w.reprobe)
  {
    if MessageFilter.IgnoredAsWritten(bot, prefix, m) then
      Reaction(cog, [], [], false, None)
    else
      Relay(cog, m, w, Some(UnboundReply))
  }

  /** What the handler does with a message it does not ignore; `onRefused`
      is the error it ends in after a refused chat. */
  function Relay(cog: Cog, m: Message, w: World, onRefused: Option<Fault>): (r: Reaction)
    ensures |r.sent| == 1
    ensures cog.state.Offline? ==> r.sent == [OfflineReply] && r.chatCalls == []
    ensures cog.state.Online? ==> |r.chatCalls| == 1 && r.chatCalls[0].body.Some? &&
                                  r.chatCalls[0].body.value.sessionId == SessionId(m.channel)
    ensures cog.state.Online? && w.chat.status == 200 ==> r.sent == [w.chat.textResponse]
    ensures cog.state.Online? && w.chat.status != 200 ==> r.sent == [ChatFailedReply]
    ensures r.fault == (if cog.state.Online? && w.chat.status != 200 then onRefused else None)
    ensures r.probed <==> cog.state.Offline? || w.chat.status != 200
    ensures r.probed ==> r.cog == Refresh(cog, w.reprobe)
    ensures !r.probed ==> r.cog == cog
  {
    if cog.state.Offline? then
      Reaction(Refresh(cog, w.reprobe), [OfflineReply], [], true, None)
    else
      var x := AnythingLlm.Chat(cog.api, SessionId(m.channel), m.content, w.chat);
      match x.result
      case Ok(text) => Reaction(cog, [text], [x.request], false, None)
      case Err(_) => Reaction(Refresh(cog, w.reprobe), [ChatFailedReply], [x.request], true, onRefused)
  }

  /** A message the written filter ignores sends nothing, chats with nobody
      and changes nothing. */
  lemma IgnoredMessageIsInert(cog: Cog, bot: User, prefix: string, m: Message, w: World)
    requires MessageFilter.IgnoredAsWritten(bot, prefix, m)
    ensures OnMessage(cog, bot, prefix, m, w) == Reaction(cog, [], [], false, None)
  {
  }

  /** Offline: exactly the offline reply, no chat, and the state the re-probe finds. */
  lemma OfflineMessage(cog: Cog, bot: User, prefix: string, m: Message, w: World)
    requires !MessageFilter.IgnoredAsWritten(bot, prefix, m) && cog.state == Offline
    ensures var r := OnMessage(cog, bot, prefix, m, w);
            && r.sent == ["AI is offline. Please try again later."]
            && r.chatCalls == []
            && r.fault.None?
            && r.probed
            && r.cog == Refresh(cog, w.reprobe)
            && (r.cog.state == Online <==> w.reprobe.root == 200 && w.reprobe.auth == 200 && w.reprobe.listing.status == 200)
  {
  }

  /** Online with a served chat: one request to the workspace's chat endpoint
      keyed by the channel's decimal id, exactly the reply text sent back,
      and the cog unchanged. */
  lemma OnlineReply(cog: Cog, bot: User, prefix: string, m: Message, w: World)
    requires !MessageFilter.IgnoredAsWritten(bot, prefix, m) && cog.state == Online && w.chat.status == 200
    ensures var r := OnMessage(cog, bot, prefix, m, w);
            && r.sent == [w.chat.textResponse]
            && r.cog == cog
            && r.fault.None?
            && |r.chatCalls| == 1
            && r.chatCalls[0].body.Some?
            && r.chatCalls[0].body.value.message == m.content
            && r.chatCalls[0].body.value.mode == "chat"
            && r.chatCalls[0].body.value.sessionId == SessionId(m.channel)
            && Decimal.ToNat(r.chatCalls[0].body.value.sessionId) == m.channel.id
            && AnythingLlm.ChatUrlSlug(cog.api.host, r.chatCalls[0].url) == Some(cog.api.workspaceSlug)
  {
  }

  /** Online with a refused chat: the failure reply is the only text sent,
      the re-probe decides the state, and the handler ends in the error. */
  lemma OnlineChatRefused(cog: Cog, bot: User, prefix: string, m: Message, w: World)
    requires !MessageFilter.IgnoredAsWritten(bot, prefix, m) && cog.state == Online && w.chat.status != 200
    ensures var r := OnMessage(cog, bot, prefix, m, w);
            && r.sent == ["Failed to chat. Please try again later."]
            && r.probed
            && |r.chatCalls| == 1
            && r.fault == Some(UnboundReply)
            && r.cog == Refresh(cog, w.reprobe)
            && (r.cog.state == Online <==> w.reprobe.root == 200 && w.reprobe.auth == 200 && w.reprobe.listing.status == 200)
  {
  }

  /** Two relayed messages from one channel chat in the same session;
      messages from different channels never do. */
  lemma SessionPerChannel(cog: Cog, bot: User, prefix: string, m1: Message, m2: Message, w1: World, w2: World)
    requires cog.state == Online
    requires !MessageFilter.IgnoredAsWritten(bot, prefix, m1) && !MessageFilter.IgnoredAsWritten(bot, prefix, m2)
    ensures var r1 := OnMessage(cog, bot, prefix, m1, w1);
            var r2 := OnMessage(cog, bot, prefix, m2, w2);
            r1.chatCalls[0].body.value.sessionId == r2.chatCalls[0].body.value.sessionId <==> m1.channel.id == m2.channel.id
  {
    SessionIdsDistinct(m1.channel, m2.channel);
  }

  /** The corrected handler: it ignores messages that mention the bot, and
      after a refused chat it returns once the re-probe has run. */
  function OnMessageFixed(cog: Cog, bot: User, prefix: string, m: Message, w: World): (r: Reaction)
    ensures r.fault.None?
    ensures |r.sent| == 0 <==> MessageFilter.Ignored(bot, prefix, m)
    ensures |r.sent| <= 1
    ensures !r.probed ==> r.cog == cog
  {
    if MessageFilter.FirstRule(bot, prefix, m).Some? then
      Reaction(cog, [], [], false, None)
    else
      Relay(cog, m, w, None)
  }

  /** The corrected handler agrees with the handler as written, up to the
      error, exactly on the messages other than those that mention the bot
      and break no other rule; on those it stays silent where the handler
      as written relays. */
  lemma FixedDropsOnlyTheFault(cog: Cog, bot: User, prefix: string, m: Message, w: World)
    ensures OnMessageFixed(cog, bot, prefix, m, w) == OnMessage(cog, bot, prefix, m, w).(fault := None) <==>
            !(MessageFilter.BotMentioned(bot, m.mentions) &&
              forall rule :: rule != MessageFilter.MentionsSelf ==> !MessageFilter.Holds(rule, bot, prefix, m))
  {
    MessageFilter.AsWrittenDiffersOnlyOnMentions(bot, prefix, m);
  }

  /** A human's message in a text channel that mentions the bot: with the
      cog online and the chat served, the handler as written relays the
      reply, while the corrected handler ignores the message. */
  lemma MentionRelayedAsWritten()
    ensures var bot := User(7, true);
            var m := Message(User(8, false), [bot], Channel(1, Text), "hello");
            var cog := Cog(AnythingLlm.Client("http://llm", "key", "default"), Online);
            var w := World(AnythingLlm.ChatResponse(200, "hi"), AnythingLlm.ProbeOutcomes(200, 200, AnythingLlm.Listing(200, [])));
            && OnMessage(cog, bot, "!", m, w).sent == ["hi"]
            && OnMessageFixed(cog, bot, "!", m, w).sent == []
  {
    MessageFilter.MentionRuleAsWrittenMisses();
  }

  /** A stream of inbound messages, each with the outcomes it observes. */
  datatype Event = Event(message: Message, world: World)

  /** What a run of the handler leaves behind. */
  datatype Trace = Trace(cog: Cog, sent: seq<string>, faults: nat)

  /** Handles the events one after another, each invocation whole. */
  function Run(cog: Cog, bot: User, prefix: string, events: seq<Event>): (t: Trace)
    decreases |events|
  {
    if events == [] then Trace(cog, [], 0)
    else
      var r := OnMessage(cog, bot, prefix, events[0].message, events[0].world);
      var rest := Run(r.cog, bot, prefix, events[1..]);
      Trace(rest.cog, r.sent + rest.sent, rest.faults + if r.fault.Some? then 1 else 0)
  }

  /** The number of messages of a stream the written filter lets through. */
  function Relevant(bot: User, prefix: string, events: seq<Event>): nat
    decreases |events|
  {
    if events == [] then 0
    else (if MessageFilter.IgnoredAsWritten(bot, prefix, events[0].message) then 0 else 1) + Relevant(bot, prefix, events[1..])
  }

  /** Every message the written filter lets through gets exactly one text
      back, and no ignored message gets any; faults never outnumber such
      messages. */
  lemma {:induction false} RunRepliesOncePerRelevantMessage(cog: Cog, bot: User, prefix: string, events: seq<Event>)
    ensures |Run(cog, bot, prefix, events).sent| == Relevant(bot, prefix, events)
    ensures Run(cog, bot, prefix, events).faults <= Relevant(bot, prefix, events)
    decreases |events|
  {
    if events != [] {
      var r := OnMessage(cog, bot, prefix, events[0].message, events[0].world);
      RunRepliesOncePerRelevantMessage(r.cog, bot, prefix, events[1..]);
    }
  }
}
