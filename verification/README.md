# discord_agent AI cog, modelled in Dafny

The repository is a Discord bot that relays channel messages to an
AnythingLLM workspace and posts the replies back. Its decision logic lives
in `cogs/ai_cog.py`, which this project models:

- **AnythingLlm** (`anything_llm.dfy`): the `AnythingLLM_API` client. It covers the
  versioned base URL, the probe and chat requests, and the workspace-slug
  correction performed by `__test_workspace__`. It also covers the aggregate
  `test_api` and the status check in `chat`.
- **AiCog** (`ai_cog.py`'s `AI_STATE` and `AI_Cog`, in `ai_cog.dfy`): the
  ONLINE/OFFLINE flag, the re-probe `__test_api__`, the start-up probe
  `cog_load`, and the `on_message` handler. Each handler call is one atomic
  step. It takes the cog and the remote outcomes, and returns the new cog, the
  texts sent, the chat requests issued, whether it re-probed, and the error it
  ends in.
- **MessageFilter** (`message_filter.dfy`): the five-rule filter at the top of
  `on_message`, both as written and as intended.
- **Decimal** (`decimal.dfy`): the decimal rendering `f"{channel.id}"` that
  becomes the chat session id, together with its inverse.
- **Discord** and **Outcomes**: the data types involved (users, channels,
  messages) and the `Option`/`Result` wrappers.

Every HTTP or Discord exchange is an input. A probe or chat outcome is a
status code plus the payload fields the code reads. An aiohttp connection
error counts as a non-200 status.

Points where the behaviour is easy to misread:

- A workspace listing that is served (status 200) but empty, or that holds
  only empty slugs, sets the slug to `''`, and the probe still passes.
- `test_api` gathers its three probes without cancelling any of them, so the
  workspace correction takes effect whenever the listing was served. This holds
  even when the root or credential probe fails.
- The handler as written (`AiCog.OnMessage`) keeps both defects listed under
  Findings: its mention rule never fires, and a refused chat ends in an
  error. The corrected handler (`AiCog.OnMessageFixed`) fixes both.

## Model

| member | source | states |
|---|---|---|
| AnythingLlm.NewClient | cogs/ai_cog.py:14-23 | a new client uses the workspace slug it is given, or "default" when none is given, and keeps host and key as given |
| AnythingLlm.BaseApiUrl | cogs/ai_cog.py:18-27 | the base API URL is exactly the host followed by "/v1" |
| AnythingLlm.ProbeRequests | cogs/ai_cog.py:35-46 | the three probes GET the bare host without credentials, then `{host}/v1/auth` and `{host}/v1/workspace/{slug}` with the bearer header |
| AnythingLlm.ChatUrlRoundTrip | cogs/ai_cog.py:74-76 | the chat endpoint is `{host}/v1/workspace/{slug}/chat`, and the workspace slug can be read back out of it |
| AnythingLlm.ChatUrlInjective | cogs/ai_cog.py:74-76 | two clients of one host that post to the same chat URL use the same workspace |
| AnythingLlm.Chat | cogs/ai_cog.py:74-82 | a chat POSTs `{message, mode: "chat", sessionId}` with the bearer header to the current workspace's endpoint; it returns textResponse iff the status is 200 and otherwise raises with the status |
| AnythingLlm.FirstNonEmpty | cogs/ai_cog.py:49-55 | the fallback is the first non-empty slug in listing order; it is '' exactly when every slug is empty |
| AnythingLlm.FirstNonEmptySnoc | cogs/ai_cog.py:54-55 | each later slug replaces the fallback only while the fallback is still empty |
| AnythingLlm.ResolveSlug | cogs/ai_cog.py:49-57 | a requested slug that appears anywhere in the listing is kept; otherwise the fallback is taken; the result is always a listed slug or '' with no non-empty slug listed |
| AnythingLlm.ResolveWorkspace | cogs/ai_cog.py:45-57 | the early-return loop with its running fallback computes the same slug as ResolveSlug |
| AnythingLlm.ResolveIdempotent | cogs/ai_cog.py:49-57 | resolving a second time against the same listing changes nothing |
| AnythingLlm.ResolveExamples | cogs/ai_cog.py:49-57 | "default" is kept when it is listed (first or later); it falls back to "other" when absent, skipping empty slugs; an empty listing gives '' |
| AnythingLlm.TestWorkspace | cogs/ai_cog.py:45-58 | the workspace probe passes iff the listing status is 200; on failure the client is untouched; on success only the slug may change, and only when the requested slug is missing |
| AnythingLlm.TestApi | cogs/ai_cog.py:29-33 | the aggregate passes iff root, auth and listing all return 200; its workspace effect is the workspace probe's |
| AnythingLlm.TestApiIdempotent | cogs/ai_cog.py:29-57 | probing again, when the second probe sees the same outcomes as the first, leaves the client and the verdict as the first probe did |
| Decimal.FromNat | cogs/ai_cog.py:141 | the session id of a channel is made of digits only, is never empty, and has no leading zero |
| Decimal.RoundTrip | cogs/ai_cog.py:141 | reading the decimal session id back gives the channel id |
| Decimal.CanonicalRoundTrip | cogs/ai_cog.py:141 | rendering the number a numeral without leading zeros denotes gives that numeral back, so each channel id has exactly one canonical session id |
| Decimal.Injective | cogs/ai_cog.py:141 | distinct channel ids render as distinct session ids |
| MessageFilter.FirstRule | cogs/ai_cog.py:123-130 | the intended filter's short-circuit test stops at a rule that holds, with no earlier rule holding; it finds none exactly when the message is not ignored |
| MessageFilter.AsWrittenIgnoresByFourRules | cogs/ai_cog.py:123-130 | the filter as written ignores a message iff it is from the bot, its channel is not a text channel or thread, its author is a bot, or its content starts with the prefix; the mention rule never contributes |
| MessageFilter.MentionRuleAsWrittenMisses | cogs/ai_cog.py:125 | a human's message in a text channel that mentions the bot passes the filter as written, though the intended filter ignores it |
| MessageFilter.AsWrittenDiffersOnlyOnMentions | cogs/ai_cog.py:123-130 | the written filter ignores a subset of what the intended one ignores; the messages it lets through in excess are exactly those that mention the bot and break no other rule |
| AiCog.NewCog | cogs/ai_cog.py:89-96 | a new cog starts OFFLINE with a client for the configured host, key and workspace slug |
| AiCog.Refresh | cogs/ai_cog.py:98-104 | after a re-probe the state is ONLINE iff all three probes returned 200 |
| AiCog.CogLoad | cogs/ai_cog.py:106-114 | a passing start-up probe sets ONLINE; a failing one leaves the state untouched |
| AiCog.CogLoadOnFreshCog | cogs/ai_cog.py:96-113 | on a fresh cog, start-up and re-probe agree: ONLINE iff the probes pass, otherwise still OFFLINE |
| AiCog.RefreshForgetsHistory | cogs/ai_cog.py:98-104 | the state after a re-probe does not depend on the state before |
| AiCog.RefreshIdempotent | cogs/ai_cog.py:98-104 | re-probing twice, when the second re-probe sees the same outcomes as the first, ends where re-probing once did |
| AiCog.SessionId | cogs/ai_cog.py:141 | the session id is the canonical decimal numeral of the channel id: digits only, "0" for 0, no leading zero otherwise, and it denotes the id |
| AiCog.SessionIdsDistinct | cogs/ai_cog.py:141 | two channels share a session id iff they have the same id |
| AiCog.OnMessage | cogs/ai_cog.py:120-150 | nothing is sent iff the written filter ignores the message, otherwise exactly one text; without a re-probe the cog is unchanged, and after one the cog is what the re-probe leaves; chat happens only when ONLINE; the handler errors iff the message passed, the cog was ONLINE and chat was refused |
| AiCog.IgnoredMessageIsInert | cogs/ai_cog.py:123-130 | a message the written filter ignores causes no send, no chat call, no probe and no state change |
| AiCog.OfflineMessage | cogs/ai_cog.py:133-136 | when OFFLINE, any message passing the written filter (mentions of the bot included) gets exactly "AI is offline. Please try again later." and no chat call; the handler re-probes, and the cog, slug included, becomes what the re-probe leaves |
| AiCog.OnlineReply | cogs/ai_cog.py:141-150 | when ONLINE and chat returns 200, for any message passing the written filter, one chat request is sent to the workspace endpoint with the content, mode "chat" and the session id of the channel; exactly textResponse is sent back and the cog is unchanged |
| AiCog.OnlineChatRefused | cogs/ai_cog.py:143-150 | when ONLINE and chat is refused, for any message passing the written filter, only the failure reply is sent; the cog, slug included, becomes what the re-probe leaves, and the handler ends in the unbound-reply error |
| AiCog.Relay | cogs/ai_cog.py:133-150 | a message past the filter gets exactly one text; when OFFLINE, the offline reply and no chat; when ONLINE, one chat in the channel's session, then textResponse on 200 or the failure reply otherwise; the handler re-probes iff it was OFFLINE or chat was refused, and then the cog is what the re-probe leaves; only a refused chat ends in the given error |
| AiCog.SessionPerChannel | cogs/ai_cog.py:141-144 | two messages passing the written filter chat in the same session iff they come from the same channel |
| AiCog.MentionRelayedAsWritten | cogs/ai_cog.py:123-150 | a human's mention of the bot in a text channel, with the cog ONLINE and chat served, gets the reply relayed by the handler as written and nothing from the corrected one |
| AiCog.OnMessageFixed | cogs/ai_cog.py:120-150 | the corrected handler never errors; it stops when the intended filter's short-circuit test finds a rule, sending nothing, and sends exactly one text otherwise |
| AiCog.FixedDropsOnlyTheFault | cogs/ai_cog.py:120-150 | the corrected handler equals the handler as written with the error cleared, exactly on the messages other than those that mention the bot and break no other rule |
| AiCog.RunRepliesOncePerRelevantMessage | cogs/ai_cog.py:120-150 | over any stream of messages, the number of texts sent equals the number of messages the written filter lets through, and errors never outnumber them |

## Left out

- HTTP and Discord I/O: aiohttp requests, `channel.send`, `channel.typing` and gateway delivery. Their results are inputs, and the texts sent are an output list.
- Malformed payloads: a listing without `workspace`, an entry without `slug`, or a reply without `textResponse` would raise a `KeyError`. The model assumes every payload is well formed.
- A rejected send, such as Discord refusing an empty `textResponse`, because this happens inside the platform.
- Concurrency: overlapping handlers racing on the shared state, and the completion order of the probes inside `asyncio.gather`. Each handler call is treated as atomic.
- `workspace_info` and `workspace_chats`, which are I/O wrappers with no decision and are never called by the handler.
- Attachments, which are read and never used; `print` logging; `cog_unload`, which does nothing; and the `setup` guild registration.
- bot.py (logging, extension loading, command-tree sync) and utility/config.py (settings declaration), which hold no decision logic. The command prefix and workspace slug they supply are parameters.

## Findings

| source | as written | input that shows it | evidently intended | confidence | as-written member | corrected member |
|---|---|---|---|---|---|---|
| cogs/ai_cog.py:143-150 | after a refused chat the handler still reads `res['textResponse']`, but `res` was never bound | ONLINE cog, chat answers status 500 | return once the failure reply is sent and the re-probe has run | not executed; high | AiCog.OnlineChatRefused | AiCog.OnMessageFixed |
| cogs/ai_cog.py:125 | `self.bot.user.id in message.mentions` compares an integer with user objects, so it never holds | a human's message in a text channel that mentions the bot | ignore messages that mention the bot (`self.bot.user in message.mentions`) | not executed; medium, because it depends on the platform library's user equality | AiCog.MentionRelayedAsWritten | AiCog.OnMessageFixed |

The handler as written, `AiCog.OnMessage`, keeps both defects. It filters
with `MessageFilter.IgnoredAsWritten`, whose mention clause
`MessageFilter.BotIdInMentionsAsWritten` is always false, and it ends a
refused chat in the unbound-reply error. The corrected handler,
`AiCog.OnMessageFixed`, filters with `MessageFilter.Ignored`, whose intended
rule order is characterised by `MessageFilter.FirstRule`. It also returns
after the re-probe.
