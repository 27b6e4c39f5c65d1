# YakDiscBot core, modelled in Dafny

This project models the core of YakDiscBot, a Discord chat bot. The bot passes reply-chain conversations to a language-model provider. It keeps a per-user credit economy of "dabloons" that pays for those calls. It also tracks a karma score per guild and user, driven by 🔥 (upvote) and 🍅 (downvote) reactions.

The model covers six parts:

- **Usage ledger** (`Ledger`, `Db`).
  - The two-tier debit of `update_usage`: the daily `usage_balance` first, then the `bank_balance`, both clamped at 0.
  - The daily `reset_usage`.
  - The top-ups of `adddabloons`, `addbankdabloons` and `increase_tokens`.
  - The per-round cost `get_chat_response` charges, and the per-command prices of the image commands.
- **Karma and reaction ledger** (`Ledger`, `ReactionTable`, `Bot`, `Admin`, `Reactions`).
  - `update_karma` / `get_karma`.
  - The live reaction add/remove handlers.
  - The replay-safe reaction upsert of the history scrape.
  - The aggregates behind `stats`, `haters`, `popularity`, `topalltime`, `leaderboard`, `reactees` and `reactors`.
- **Prompt compiler** (`Talk`, `Patterns`, `Identity`, `Abbreviation`). It turns a reply chain into chat turns:
  - the chain walk with a fetch oracle;
  - the `use*` directives;
  - the cleaning of each line;
  - the author and mention ids, their resolution to names, and the substitution of the names;
  - the system message;
  - the role tagging by the `Gluemo:` prefix.
- **Provider glue** (`Provider`).
  - The pricing table and cost rules.
  - The `call_function` tool dispatch.
  - The tool-call loop of `get_chat_response`, over a finite list of provider responses.
- **Output and cache** (`Delivery`).
  - The 1950-character split of `reply_split`, with chained replies.
  - The three-level lookup of `get_message_from_cache`.
- **Small decision logic**:
  - `on_message` routing and the `!rw`/`!rs` rewrites, plus the hourly reset tick (`Bot`);
  - the insult timer and alarm reply (`Safety`);
  - the grandparent lookup of `rs`/`rw` (`ReplyCommands`);
  - history filtering and reply-context insertion (`History`);
  - the dabloon display (`Tokens`);
  - the insult list (`Fun`);
  - the image command gates and debits (`Images`).

Imperative source becomes imperative Dafny:

- **The store.** The SQLite tables are the fields of one `Db.Database` class. The usage and karma tables and the identity store are `map`s. The reaction table and each user's abbreviation list are `seq`s.
- **Other objects whose state changes:**
  - the reset marker of the background task (`Bot.ResetClock`);
  - the module-level `last_insult_date` (`Safety.InsultTimer`);
  - the insult list (`Fun.InsultList`);
  - the `extra_cache` list (`Delivery.MessageCache`).
- **Methods and loops.** Every handler that writes to the store is a method whose `ensures` gives the new state as a function of the old one. Every loop of the source is a `while` loop with its invariants.
- **Partner lemmas.** The properties each source file promises are proved about those specification functions as separate lemmas:
  - idempotence of the scrape and of the reset;
  - add-then-remove restoring karma;
  - balances staying non-negative;
  - the chunks concatenating back to the text;
  - the shape of the reply chain.

Platform and provider calls enter the model as parameters:

- message fetches: `Talk.Fetch`;
- guild member lookups: `Identity.Directory`;
- `float()`: `Talk.ParseFloat`;
- provider responses: `Provider.Response`;
- HTTP statuses: `Images.Http`;
- the clock, random draws and the admin id: plain parameters.

Files: `wrappers.dfy` (Option and Result), `text.dfy` (the Python string operations the code uses), `config.dfy` (the constants of `config.py`), `ranking.dfy` (sorting and the two ways of cutting a ranking), and one file per component named above.

## Model

| member | source | states |
|---|---|---|
| Ledger.Debit | db.py:59-70 | total usage grows by delta; if the daily balance covers delta it drops by delta and bank is untouched, otherwise daily becomes 0 and bank becomes max(bank - remainder, 0); with a non-negative bank both balances end non-negative and their sum is max(0, sum - delta) |
| Ledger.DebitUser | db.py:52-72 | a missing user gets a row with usage initial_balance - delta (unclamped), bank 0 and total 0 (the column default); an existing row is debited as above; every other row is unchanged |
| Ledger.DebitAllBalances | db.py:60-70 | any run of non-negative debits on an existing row with non-negative balances keeps both balances non-negative, leaves their sum at max(0, start - total debited) and adds the total to total usage |
| Ledger.ResetAll | db.py:74-79 | every row's daily balance becomes the initial value; bank and total usage stay; no row is added or removed |
| Ledger.ResetAllIdempotent | db.py:74-79 | resetting twice equals resetting once |
| Ledger.AddUsage | commands/admin.py:184-191 | an existing row gains amount in its daily balance with bank and total kept; a missing user gets daily INITIAL_DABLOONS + amount and bank 0; others unchanged |
| Ledger.AddBank | commands/admin.py:165-172 | an existing row gains amount in its bank with daily and total kept; a missing user gets daily INITIAL_DABLOONS and bank amount; others unchanged |
| Ledger.KarmaOf | db.py:81-87 | karma is the stored value, or 0 when the (guild, user) row is missing |
| Ledger.AddKarmaAsWritten | db.py:89-98 | as written: an existing row gains delta, a missing row is left missing (the `is None` test never holds) |
| Ledger.FirstKarmaIsLost | db.py:92-96 | as written, the first upvote of a user without a karma row leaves that user's karma at 0 |
| Ledger.AddKarma | db.py:89-98 | corrected: the (guild, user) karma grows by delta, inserting the row when missing; every other (guild, user) is unchanged |
| Ledger.AddKarmaUndo | db.py:89-98 | adding delta and then -delta restores every user's karma |
| Db.FindEntry | commands/abbreviation.py:44 | an abbreviation is found exactly when some entry has the key, and the value returned is that entry's |
| Db.PutEntry | commands/abbreviation.py:39 | after setting, the key maps to the new value, every other key keeps its lookup, and keys stay distinct |
| Db.DeleteEntry | commands/abbreviation.py:61 | after deleting, the key is not found, every other key keeps its lookup, and distinct keys stay distinct |
| Db.StoredName | personalization.py:9-11 | a stored name counts only when present and non-empty (Python truthiness of `if name`) |
| Db.StoredDescription | personalization.py:10 | a missing description reads as the empty string |
| Db.AbbreviationsOf | commands/abbreviation.py:66 | only the (guild, user) pair's own abbreviations are returned, none for a pair without any |
| Db.Database.constructor | db.py:11-42 | the database starts with every table empty |
| Db.Database.GetUsage | db.py:44-50 | None exactly for a user without a row, otherwise that row's (usage, bank) balances |
| Db.Database.UpdateUsage | db.py:52-72 | the usage table becomes the two-tier debit of the old one |
| Db.Database.ResetUsage | db.py:74-79 | the usage table becomes the reset of the old one |
| Db.Database.AddUsageBalance | commands/fun.py:62-69 | the usage table becomes the usage top-up of the old one |
| Db.Database.AddBankBalance | commands/admin.py:165-172 | the usage table becomes the bank top-up of the old one |
| Db.Database.GetKarma | db.py:81-87 | a missing karma row reads as 0 |
| Db.Database.UpdateKarma | db.py:89-98 | the karma table becomes the corrected karma update of the old one |
| Db.Database.AddReaction | bot.py:204 | the reaction table becomes the upsert of the new row keyed by (message, reactor, emoji); keys stay unique |
| Db.Database.RemoveReaction | bot.py:225 | the reaction table loses the row with that key; keys stay unique |
| Db.Database.GetName | personalization.py:9 | the name store read, empty names counting as absent |
| Db.Database.GetDescription | personalization.py:10 | the description store read, missing meaning "" |
| Db.Database.SetName | personalization.py:17 | only that id's name changes |
| Db.Database.SetDescription | openai_helper.py:166-171 | only that id's description changes |
| Db.Database.GetAllAbbreviations | commands/abbreviation.py:66 | the calling guild and user's abbreviation list |
| Db.Database.GetAbbreviation | commands/abbreviation.py:44 | found exactly when the user's list holds the key |
| Db.Database.SetAbbreviation | commands/abbreviation.py:39 | only the caller's list changes, and afterwards the key reads back as the value set |
| Db.Database.DeleteAbbreviation | commands/abbreviation.py:61 | only the caller's list changes, afterwards the key is not found, and every list still has distinct keys |
| Abbreviation.ExpandAbbreviations | commands/abbreviation.py:65-69 | the loop's result is every (key, value) replacement applied in turn, over the caller's own abbreviations only |
| Abbreviation.ExpandAppend | commands/abbreviation.py:67-68 | a later key is replaced in the text the earlier expansions produced, at every occurrence |
| Abbreviation.ExpandUnchanged | commands/abbreviation.py:68 | when no (non-empty) key occurs in the text the text comes back unchanged (in particular with no abbreviations) |
| Abbreviation.GetAbbrReply | commands/abbreviation.py:45-48 | a missing or empty value gives "No abbreviation found"; otherwise the reply is the key header followed by at most the first 1900 characters of the value, all of it when it fits |
| Abbreviation.GetAbbr | commands/abbreviation.py:43-48 | an unknown key gives the not-found reply |
| Abbreviation.ListAbbrReply | commands/abbreviation.py:51-57 | no keys gives "You have no abbreviations."; otherwise the keys joined by ", ", each of them appearing in the reply |
| Admin.AddBankDabloons | commands/admin.py:158-175 | a non-admin is refused and nothing changes; the admin gets the bank top-up of the user |
| Admin.AddDabloons | commands/admin.py:177-194 | a non-admin is refused and nothing changes; the admin gets the usage top-up of the user |
| Admin.ResetUsageData | commands/admin.py:132-138 | a non-admin is refused and nothing changes; the admin resets every daily balance to INITIAL_DABLOONS |
| Admin.RecordOf | commands/admin.py:79-99 | the replied id and author are both empty exactly when there is no reference or the fetch fails, otherwise the fetched message's id and author as text; the other fields copy the message |
| Admin.RecordedHasAll | commands/admin.py:78-99 | every scraped message id has a record |
| Admin.RecordedFirst | commands/admin.py:80 | each record is that of the first message with that id |
| Admin.ReactionRows | commands/admin.py:101-117 | one row per reacting user, keyed (message, user, emoji), with the message author as reactee |
| Admin.VotesAreReactions | commands/admin.py:101-117 | every row the scrape writes comes from some reaction of some scraped message |
| Admin.ScrapeData | commands/admin.py:64-130 | a non-admin is refused and nothing changes; otherwise the count is the number of messages iterated, the map keeps the first record per id, the reaction table is the replay upsert of every reaction, and karma is never touched |
| Admin.ScrapeChannel | commands/admin.py:74-123 | one channel's history extends the count, the map and the upserted table exactly as if appended to what was seen before |
| Admin.ScrapeMessage | commands/admin.py:76-121 | one message adds its first record and upserts its reaction rows |
| Admin.RecordVotes | commands/admin.py:101-119 | the table becomes the upsert of every reaction row of the message |
| Admin.RecordReaction | commands/admin.py:102-117 | the table becomes the upsert of one reaction's rows |
| Admin.ScrapeTwiceIsOnce | commands/admin.py:105-117 | scraping the same history a second time leaves the reaction table as the first scrape left it |
| Bot.ContainsAny | bot.py:84 | true exactly when some alarming phrase occurs in the text |
| Bot.Drop | bot.py:115 | Python's `s[n:]`: empty when the text is not longer than n |
| Bot.RouteMessage | bot.py:77-129 | bot authors are ignored and nothing else is; a message starting with the bot mention runs the command processor if the command is valid and the prompt chain otherwise; the `!rw`/`!rs` rewrites fire only for a reply to a bot message; a message that is no reply and no mention goes to the command processor |
| Bot.RewriteReply | bot.py:114-117 | `!rw text` on a reply to the bot answers the replied message with the stripped text |
| Bot.ResendReply | bot.py:118-126 | `!rs text` on a reply to a bot message that itself replies answers the original with its content plus the text after the first `!rs` |
| Bot.OnMessage | bot.py:76-129 | the route is as above; the alarm handler runs only for a non-bot author in a guild with the flag set and an alarming phrase in the lowercased content, with the karma read as 0 when missing, and only then can the insult timer move |
| Bot.Vote | bot.py:202-207 | +1 for the upvote emoji, -1 for the downvote emoji, 0 for any other |
| Bot.OnReactionAdd | bot.py:190-207 | after a successful fetch an up/down vote changes karma by its vote and upserts the reaction row; another emoji or a failed fetch changes nothing |
| Bot.OnReactionRemove | bot.py:211-228 | after a successful fetch an up/down vote changes karma by minus its vote and removes the reaction row; otherwise nothing changes |
| Bot.AddThenRemoveRestoresKarma | bot.py:202-228 | adding and then removing the same vote restores every karma value |
| Bot.AddThenRemoveRestoresTable | bot.py:202-228 | adding and then removing a reaction that was not in the table restores the table |
| Bot.LastDate | bot.py:237-241 | the marker after a run of ticks is the last date read |
| Bot.ResetClock.constructor | bot.py:233 | the marker starts at today's date |
| Bot.ResetClock.Tick | bot.py:237-241 | the usage table is reset only when the date differs from the marker, and the marker becomes the date |
| Bot.ResetClock.Run | bot.py:230-241 | over a run of date readings the marker ends at the last reading, and the table ends reset exactly when some reading differs from the marker before it, unchanged otherwise |
| Bot.DateChangedStep | bot.py:238-241 | one more reading changes the outcome only when it differs from the latest marker |
| Bot.SameDateTickIsNoOp | bot.py:238-241 | a second tick on the same date changes neither the marker nor whether a reset happened |
| Talk.ReplyTarget | talk.py:24 | a reference is followed only when present with a non-zero message id |
| Talk.Reverse | talk.py:31 | `list.reverse()`: element i moves to position len - 1 - i |
| Talk.WalkChain | talk.py:20-31 | the while loop builds exactly the reversed reply chain |
| Talk.ChainFromShape | talk.py:20-30 | newest first: starts at the leaf, each message is followed by the one its reference fetches, and the walk stops at a message with no reference, at a failed fetch, or when the fuel runs out |
| Talk.ChainShape | talk.py:20-31 | oldest first: the leaf is last and each message replies to the one before it |
| Talk.ApplyAllAppend | talk.py:44-61 | directives of later messages are applied after those of earlier ones |
| Talk.ApplyAllNumeric | talk.py:46-61 | each numeric parameter ends at its last directive whose value converts, otherwise at its start value; values that fail `float()` are skipped |
| Talk.ApplyAllModel | talk.py:46-59 | the model engine ends at the value of its last `usemodel` directive, otherwise at its start value |
| Talk.CleanContent | talk.py:63-66 | directives are removed, the result stripped, and exactly one leading `!` dropped when present |
| Talk.LinesAt | talk.py:44-69 | one prompt line per chain message, in chain order |
| Talk.LineShape | talk.py:69 | each line is the author id, ": ", then the cleaned content with the author's abbreviations expanded |
| Talk.MentionKeys | talk.py:72-73 | mentioned ids enter as text keys, in order |
| Talk.AuthorIds | talk.py:34-73 | the id list starts with the bot id and holds at least one id per chain message |
| Talk.AuthorIdsHaveAuthors | talk.py:71 | every chain message's author is in the id list |
| Talk.MessageLine | talk.py:63-69 | the computed line is the line of that message |
| Talk.ApplyMessageDirectives | talk.py:46-61 | the loop over one message's matches applies them in order |
| Talk.CollectPrompt | talk.py:33-73 | the loop over the chain yields the parameters after every directive, the lines of every message and the id list |
| Talk.PromptMessage | talk.py:44-73 | one message extends the parameters, lines and ids of the messages before it |
| Talk.PromptStep | talk.py:44-73 | the directives, parameters and ids of a longer chain prefix extend those of the shorter one by one message's share |
| Talk.SubstituteAbsent | talk.py:78-83 | a line that contains no id text is left unchanged |
| Talk.SubstituteOwnText | talk.py:78-83 | ids whose resolved name is their own text leave the line unchanged |
| Talk.SubstituteNames | talk.py:78-83 | each line is rewritten on its own with the same ids and names |
| Talk.SystemMessage | talk.py:85-90 | the system message starts with the personality |
| Talk.SystemMessageBare | talk.py:89-90 | with no non-empty description the system message is just the personality |
| Talk.SystemMessageMentions | talk.py:87-90 | every author with a non-empty description contributes "\nname: description" |
| Talk.BuildSystemMessage | talk.py:85-90 | the loop builds exactly the system message |
| Talk.TagLine | talk.py:97-100 | a line starting "Gluemo:" is an assistant turn with every "Gluemo:" removed; any other line is a user turn with the full line |
| Talk.TagRoles | talk.py:92-100 | the turns are the system turn followed by one tagged turn per line, never merged |
| Talk.HandlePromptChain | talk.py:15-108 | the request holds the leaf's author, the parameters of every directive in the chain, the system turn and one tagged, name-substituted line per chain message; only the name store changes, as the resolver writes it |
| Identity.Render | personalization.py:21 | `str(id)`: a numeric id's text parses back to that id |
| Identity.MemberOf | personalization.py:14 | a text id (from a mention) never finds a member |
| Identity.MemberName | personalization.py:16 | the nickname when set, else the display name |
| Identity.GetAuthorInformation | personalization.py:6-21 | the loop's result is the resolution of every id, and the store holds exactly the names it wrote |
| Identity.ResolveAllEntries | personalization.py:7-21 | one entry per distinct input id and no other, and the description of each always comes from the store |
| Identity.ResolveAllStore | personalization.py:11-17 | stored names are never overwritten, and a name is written only for an id whose member was found |
| Identity.ResolveAllNoMembers | personalization.py:19-21 | when no member is found nothing is written |
| Identity.ResolveAllStoreExact | personalization.py:9-17 | afterwards each text keeps its stored name. A text with none gains the member's name exactly when a listed integer id renders to it and the directory knows that member by a non-empty name |
| Identity.ResolveAllLastStep | personalization.py:9-21 | an id's entry is what its last occurrence resolves to, against the store as the loop reaches it |
| Identity.ResolveAllNames | personalization.py:9-21 | every integer id gets the stored name, else the member's name, else its text. A mention gets the stored name, else the name an earlier integer id with the same text wrote, else its text |
| Identity.MentionOfAuthor | personalization.py:9-17 | a prompt whose author mentions themself: the mention shows the member name the author's lookup has just stored |
| Patterns.SpaceRun | talk.py:41 | the maximal run of `\s` characters from a position |
| Patterns.NonSpaceRun | talk.py:41 | the maximal run of `\S` characters from a position |
| Patterns.DigitRun | talk.py:42 | the maximal run of digits from a position |
| Patterns.KeywordAt | talk.py:41 | which directive keyword, case-insensitively, starts at a position, if any |
| Patterns.DirectiveAt | talk.py:41 | a match found at a position is a real match: word boundary, keyword, whitespace, then a non-empty non-space value ending at whitespace or the end |
| Patterns.FindDirectives | talk.py:46 | matches come left to right and do not overlap |
| Patterns.FindDirectivesMatch | talk.py:46-47 | every match found satisfies the directive pattern |
| Patterns.RemoveDirectives | talk.py:63 | the text after substitution is not longer than before |
| Patterns.RemoveDirectivesLength | talk.py:63 | the length `sub` keeps plus the lengths of the matches is the length of the text |
| Patterns.RemoveNoDirectives | talk.py:63 | with no matches the text is unchanged |
| Patterns.MentionAt | talk.py:42 | a mention found ends in `>` right after 17 to 19 digits, and the id is those digits |
| Patterns.FindMentions | talk.py:72 | every id found has 17 to 19 digits |
| Patterns.FindMentionsOccur | talk.py:72 | every id found occurs in the content |
| Provider.Rate | openai_helper.py:90-163 | a price exists exactly for a (model, field) of the table and is non-negative; an unknown model or field is an error naming it |
| Provider.PricesNonNegative | openai_helper.py:90-163 | every price in the table is non-negative |
| Provider.CallFunction | openai_helper.py:199-208 | an unknown tool name gives an error result and changes nothing; a known one with the wrong argument names fails; a non-numeric user id changes nothing; only the two update tools change the profile store |
| Provider.GetUserNameDefault | openai_helper.py:186-191 | a user without a stored name is called "User" |
| Provider.NameRoundTrip | openai_helper.py:177-193 | a name written by `update_user_name` is what `get_user_name` then returns ("User" for an empty one) |
| Provider.MemoryUpdateFootprint | openai_helper.py:166-171 | `update_user_memory` sets that user's description and nothing else |
| Provider.RoundCost | openai_helper.py:228-231 | a round costs input rate × prompt tokens + output rate × completion tokens, and fails exactly when the model is not priced |
| Provider.RoundCostNonNegative | openai_helper.py:228-231 | a round's cost is never negative |
| Provider.FirstImage | openai_helper.py:236-243 | the image is that of the first image-generation output, none when there is none |
| Provider.ProcessCallsAnswers | openai_helper.py:251-262 | exactly one call output is appended per function call, in order, with that call's id, and the balances are untouched |
| Provider.ProcessCallsStops | openai_helper.py:251-262 | after a failing call the later calls are not executed |
| Provider.RoundDebits | openai_helper.py:228-248 | each round debits its cost once, and a text answer is returned only for a round without function calls |
| Provider.ConverseDebits | openai_helper.py:218-262 | the whole loop debits the user once per round played, by that round's cost |
| Provider.ConverseKeepsBalances | openai_helper.py:218-232 | over the whole loop the user's balances stay non-negative, their sum drops to max(0, start - total cost), total usage grows by the total cost, and no other row changes |
| Provider.ConverseReply | openai_helper.py:247-248 | the text returned is that of the first response without function calls, every earlier one having called a function |
| Provider.ConverseMessages | openai_helper.py:258-262 | the transcript only grows, and only by call outputs |
| Provider.ProcessCallsPrefix | openai_helper.py:258-262 | answering calls keeps the transcript as a prefix |
| Provider.InvokeTool | openai_helper.py:254-256 | the store changes as the dispatch says, and not at all on an error |
| Provider.AnswerCalls | openai_helper.py:251-262 | the loop's transcript, first error and profile store are those of answering the outputs in order |
| Provider.PlayRound | openai_helper.py:219-262 | one pass of the loop leaves the ledger, profile store and transcript of one round, and reports finished exactly when that round ends the loop, with its outcome |
| Provider.GetChatResponse | openai_helper.py:211-266 | the loop's result, transcript, balances and profile store are those of the conversation over the responses |
| Provider.ImagePriceKey | openai_helper.py:298-304 | gpt-image-1 is priced by quality, models starting "dall" by size, anything else not at all |
| Provider.ImageCost | openai_helper.py:298-304 | cost is the price at that key times n, 0 for an unpriced model, an error for a missing key |
| Provider.ImageCostNonNegative | openai_helper.py:298-304 | an image cost for a non-negative n is never negative |
| Provider.GetImage | openai_helper.py:289-311 | dall-e-3 with n ≠ 1 fails before any call or debit; a failed provider call debits nothing; otherwise the user is debited the image cost once |
| Provider.EditCost | openai_helper.py:335 | an edit costs the gpt-image-1 "high" price, 0.167 |
| Provider.EditImage | openai_helper.py:314-342 | a failed download or edit debits nothing; otherwise the user is debited the edit cost once |
| Delivery.Chunks | discord_helper.py:40-43 | there is always at least one chunk |
| Delivery.ChunksCover | discord_helper.py:40-43 | the chunks concatenate back to the text, each is at most 1950 characters, and a longer text has ceil(len/1950) of them |
| Delivery.ChunkSlice | discord_helper.py:43 | chunk i is the text's slice [1950i, 1950(i+1)) |
| Delivery.TextReplies | discord_helper.py:40-44 | one reply per chunk |
| Delivery.ReplySplit | discord_helper.py:30-44 | the method sends exactly the reply list that the lemmas below characterise: the empty-response error, or the image and then the chained chunks |
| Delivery.SendChunks | discord_helper.py:40-44 | the chunk loop sends exactly the chained chunk replies |
| Delivery.RepliesEmpty | discord_helper.py:31-33 | blank text with no image gives exactly one "Error: Empty response" reply |
| Delivery.RepliesCarryText | discord_helper.py:34-44 | an image goes first; the text replies that follow carry chunks of at most 1950 characters that concatenate back to the text |
| Delivery.RepliesShort | discord_helper.py:37-38 | text of at most 1950 characters goes in one reply, after the image if any, even when empty |
| Delivery.RepliesChained | discord_helper.py:41-44 | the first text reply answers the original message and each later one answers the previous reply |
| Delivery.FindMessage | discord_helper.py:14-20 | the first cached message with that id, none exactly when no cached message has it |
| Delivery.MessageCache.constructor | discord_helper.py:12 | the extra cache starts empty |
| Delivery.MessageCache.Get | discord_helper.py:12-28 | the bot cache is tried first, then the extra cache, then the fetch; only a successful fetch appends to the extra cache |
| Delivery.FirstMatch | discord_helper.py:18-20 | a lookup finds the earliest message with the id |
| Delivery.FetchedIsKept | discord_helper.py:23-25 | a fetched message is found in the extra cache afterwards |
| Safety.InsultChance | safety.py:29-32 | the chance is 0.001 at elapsed 0, at least 0.001 for non-negative elapsed time, below 0.1 before 48 hours and exactly 0.1 from 48 hours on |
| Safety.InsultChanceMonotone | safety.py:29-32 | the chance never falls as time passes |
| Safety.InsultTimer.constructor | safety.py:17 | the last insult time starts at 0 |
| Safety.InsultTimer.InsultProc | safety.py:20-38 | fires exactly when the roll is below the chance, and only then moves the last insult time to now, which drops the chance back to 0.001 |
| Safety.AlarmReply | safety.py:41-65 | "poopoo" with a roll below 0.3 answers "peepee" alone; negative karma with a fired timer answers an insult from the list, or nothing when the list is empty; anything else gets the crisis message |
| Safety.HandleAlarmingWords | safety.py:41-65 | the timer is consulted only when the poopoo branch did not fire and karma is negative, and the reply follows the rules above |
| Fun.IncreaseTokens | commands/fun.py:59-71 | the usage table becomes the usage top-up of the old one |
| Fun.Without | commands/fun.py:115 | keeps exactly the entries different from the target, and is shorter exactly when the target occurs |
| Fun.WithoutAppend | commands/fun.py:115 | the filter keeps order: filtering a concatenation is concatenating the filters |
| Fun.WithoutIdempotent | commands/fun.py:115 | filtering twice equals filtering once |
| Fun.WithoutAbsent | commands/fun.py:115-116 | an absent target leaves the list unchanged |
| Fun.SubmittedIsRemovable | commands/fun.py:86-89 | removing a just-submitted insult leaves the list as removing it before the submission would |
| Fun.InsultList.constructor | commands/fun.py:19 | the list starts as loaded |
| Fun.InsultList.SubmitInsult | commands/fun.py:77-101 | the blocked user gets "Nice try!" and no change; anyone else appends the trimmed insult and gets one of the stock answers |
| Fun.InsultList.RemoveInsult | commands/fun.py:103-124 | the blocked user gets "Nice try!" and no change; an absent target gives "Not found!" and no change; otherwise every equal entry goes, the rest stay in order, and the answer is "Removed!" |
| History.Nick | messages.py:150-153 | the nick from the table, else the first three characters of the name |
| History.Filter | messages.py:55-57 | keeps exactly the entries satisfying the test |
| History.FilterAppend | messages.py:55 | the filter keeps order |
| History.FilterFilter | messages.py:55-57 | two filters in a row equal one filter on both tests |
| History.SelectedSpec | messages.py:55-57 | the kept entries are those by the user (or any when sampling), shorter than 1000 characters and newer than the cutoff, in order |
| History.FirstWithId | messages.py:63 | the first master entry with that id, none when there is none |
| History.Context | messages.py:62-66 | a reply gets at most one context entry: the first master entry with the replied id, when its content is at most 300 characters |
| History.Inserted | messages.py:59-67 | one tag per position of the list with context, marking the inserted entries |
| History.WithContextRestores | messages.py:59-67 | deleting the inserted entries gives back the filtered list |
| History.WithContextInserted | messages.py:59-67 | each inserted entry sits right before the reply it gives context for |
| History.InsertReplyContext | messages.py:58-67 | the while loop with `list.insert` yields the list with context, and the unchanged list when sampling |
| History.InsertContextAt | messages.py:62-67 | one step inserts the context before position i and moves past the reply |
| History.Entry | messages.py:84-91 | "nick replying to nick: content\n" for a reply to a known message, "nick replying to Unknown: …" for an unknown one, "nick: content\n" otherwise |
| History.Entries | messages.py:83-92 | one line per entry |
| History.EntryShape | messages.py:84-91 | every line starts with the author's nick and ends with the content and a newline |
| History.WriteEntries | messages.py:81-93 | the loop writes exactly those lines |
| History.GenerateMessages | messages.py:36-93 | the master list is reversed to oldest first, filtered, given reply context unless sampling, and written one line per entry to data/<user>.txt |
| History.MirrorUrl | messages.py:17-20 | the rewritten URL is the mirror host plus the path, query and fragment dropped |
| History.SplitPair | messages.py:22 | a query pair splits at its first "=" |
| History.FirstValue | messages.py:22-23 | a value found comes from a "key=value" pair of the query |
| History.CheckExpiry | messages.py:21-27 | the URL is rewritten exactly when the `ex` value parses as hex and, times 1000, is at most now in milliseconds; an `ex` value that is not hex is reported as bad |
| History.QueryValueSingle | messages.py:22-23 | a lone `ex=v` pair yields v |
| Images.SizePrefix | commands/image.py:21-27 | "hoz" gives 1792x1024, "vert" 1024x1792, anything else 1024x1024 |
| Images.SizePrefixRestores | commands/image.py:21-27 | the size word and the rest of the argument give back the argument |
| Images.SizePrefixOfWord | commands/image.py:22-27 | a prompt after "hoz" or "vert" is kept whole with the matching size |
| Images.SearchReplace | commands/image.py:103-107 | the argument is accepted exactly when it has one "\|", giving two parts without one |
| Images.SearchReplaceRoundTrip | commands/image.py:103-107 | a stripped search and replace joined by "\|" parse back to themselves |
| Images.SizesArePriced | commands/image.py:21-29 | every size `genimage` picks is priced for dall-e-3: 0.04 square, 0.08 otherwise |
| Images.Dalle2IsPriced | commands/image.py:181 | the dall-e-2 square image is priced at 0.02 |
| Images.GenImage | commands/image.py:18-37 | a failed call debits nothing; a generated image is debited its size price by `get_image` and then 0.04 by the command |
| Images.Dalle2 | commands/image.py:177-188 | a failed call debits nothing; a generated image is debited 0.02 by `get_image` and 0.02 by the command |
| Images.Dalle3Hd | commands/image.py:190-208 | a failed call debits nothing; a generated image is debited its size price by `get_image` and 0.08 by the command |
| Images.StabilityReply | commands/image.py:56-64 | status 200 gives the image, another status the body, a raised request the error text |
| Images.StabilityGenerate | commands/image.py:39-64 | without an API key nothing is requested or debited; the cost is debited only on status 200 |
| Images.SdUltra | commands/image.py:39-64 | without a key no call or debit; 0.08 debited only on status 200 |
| Images.SdCore | commands/image.py:66-91 | without a key no call or debit; 0.03 debited only on status 200 |
| Images.SearchAndReplace | commands/image.py:93-131 | the key, the attachment and the "search\|replace" format are checked in that order, no request is made when one fails, and 0.04 is debited only on status 200 |
| Images.ImageToVideoReply | commands/image.py:133-155 | no attachment is an error; status 200 gives the check-back message with the video id |
| Images.GetVideoReply | commands/image.py:157-175 | 202 is "in progress", 200 the video, any other status the body |
| Tokens.RoundHalfEven | commands/tokens.py:22-23 | `round()`: the nearest integer, ties to the even one |
| Tokens.RoundNearest | commands/tokens.py:22 | a value strictly within 0.5 of an integer rounds to it |
| Tokens.RoundWhole | commands/tokens.py:22 | an integer rounds to itself |
| Tokens.Dabloons | commands/tokens.py:22-23 | the shown amount is a balance × 250 rounded |
| Tokens.DabloonsOfWhole | commands/tokens.py:22-23 | a balance worth a whole number of dabloons shows that number |
| Tokens.InitialAllowanceShown | commands/tokens.py:22 | the 0.5 initial balance shows as 125 dabloons |
| Tokens.TargetUser | commands/tokens.py:12-13 | the target is the given user, else the author |
| Tokens.Tokens | commands/tokens.py:10-30 | a negative target or a target without a usage row gives "No data found"; otherwise the embed shows both balances in dabloons under "<name>'s Finances" |
| Tokens.UnknownUserHasNoData | commands/tokens.py:14-20 | a user without a row gets no embed |
| Tokens.FreshAccountShown | commands/tokens.py:14-30 | a fresh account shows 125 and 0 |
| ReplyCommands.Grandparent | commands/replycommands.py:18-31 | errors come in order: no reference, replied message missing, replied message not a reply, grandparent missing; success is exactly when all four lookups succeed, and gives the grandparent |
| ReplyCommands.Rs | commands/replycommands.py:15-33 | `rs` runs the prompt chain on the grandparent, or sends the first error |
| ReplyCommands.Rw | commands/replycommands.py:35-52 | `rw` answers the grandparent with the content, or sends the first error |
| ReplyCommands.RsRwAgree | commands/replycommands.py:18-52 | both commands fail at the same step with the same message, except that the last error names "resend" or "rewrite" |
| ReplyCommands.GrandparentInChain | commands/replycommands.py:28-33 | the grandparent is the message two steps up the reply chain the prompt compiler walks |
| ReactionTable.Lookup | commands/admin.py:105-108 | found exactly when some row has the (message, reactor, emoji) key |
| ReactionTable.SetReactee | commands/admin.py:111-113 | the UPDATE changes only the reactee of the rows with that key |
| ReactionTable.Upsert | commands/admin.py:105-117 | afterwards the key maps to the new reactee and other keys are untouched; an existing key changes in place, a new one is appended; keys stay unique |
| ReactionTable.RemoveKey | bot.py:225 | afterwards no row has the key, other keys are untouched, and an absent key changes nothing |
| ReactionTable.RemoveKeyUnique | bot.py:225 | removal keeps keys unique |
| ReactionTable.UpsertIdempotent | commands/admin.py:105-117 | upserting the same row twice equals upserting it once |
| ReactionTable.SetReacteeSame | commands/admin.py:111-113 | setting the reactee it already has changes nothing |
| ReactionTable.RemoveUndoesInsert | bot.py:204-225 | removing a freshly inserted key gives back the table |
| ReactionTable.UpsertAll | commands/admin.py:101-117 | a run of upserts keeps keys unique |
| ReactionTable.LastVote | commands/admin.py:101-117 | the reactee of the last vote with a key, found exactly when some vote has that key |
| ReactionTable.LookupUpsertAll | commands/admin.py:101-117 | after a run of upserts each key maps to its last vote's reactee, or to what it had |
| ReactionTable.UpsertAllKeepsKeys | commands/admin.py:109-113 | re-voting rows already present adds and reorders nothing |
| ReactionTable.UpsertAllIdempotent | commands/admin.py:101-117 | replaying the same votes a second time changes nothing |
| ReactionTable.UpsertAllAppend | commands/admin.py:101-117 | upserting two runs in turn equals upserting their concatenation |
| Ranking.InsertSorted | commands/reactions.py:117 | insertion into a sorted list keeps it sorted |
| Ranking.Sort | commands/reactions.py:117 | the result is sorted in the chosen direction and a permutation of the input |
| Ranking.SqlLimit | commands/reactions.py:50-51 | SQLite LIMIT: a prefix of min(n, len) entries, everything for a negative n |
| Ranking.PySlice | commands/reactions.py:120 | Python `[:n]`: a prefix of min(n, len) entries, dropping \|n\| entries from the end for a negative n |
| Ranking.TopOfSorted | commands/reactions.py:117-120 | any entry a cut of the sorted list leaves out may come after every entry it keeps |
| Ranking.DistinctIdsKept | commands/reactions.py:117-120 | reordering and cutting keep ids distinct |
| Reactions.CountOf | commands/reactions.py:13-19 | the count is 0 exactly when no row has that party and emoji |
| Reactions.CountAppend | commands/reactions.py:13-19 | counts add over concatenated tables |
| Reactions.OtherEmojiCountsInNeither | commands/reactions.py:15-16 | a row with another emoji counts as neither an upvote nor a downvote |
| Reactions.FreshReactionCounted | commands/reactions.py:13-28 | a newly recorded reaction raises its reactor's and reactee's count by one |
| Reactions.Ratio | commands/reactions.py:91-92 | up/down when down > 0, else up |
| Reactions.Hundredths | commands/reactions.py:93-94 | `round(x, 2)`: within 0.005 of x |
| Reactions.StatsTarget | commands/reactions.py:67 | `user_id or author`: none, or 0, means the caller |
| Reactions.StatsOfStranger | commands/reactions.py:70-89 | a user without reactions shows all zeros |
| Reactions.StatsRatios | commands/reactions.py:91-94 | each shown ratio, given and received, is up/down to within 0.005, or up when down is 0 |
| Reactions.Parties | commands/reactions.py:18 | GROUP BY: each party of the table exactly once |
| Reactions.ReactionStats | commands/reactions.py:9-32 | one tally per reactor and one per reactee, each counting its up and down votes |
| Reactions.Tallies | commands/reactions.py:13-28 | a tally per group, in group order |
| Reactions.GroupsCoverTable | commands/reactions.py:13-19 | the per-group counts add up to the table's count for that emoji |
| Reactions.Ratios | commands/reactions.py:110-115 | one ratio entry per group |
| Reactions.RatioPlaces | commands/reactions.py:119-123 | ranks count from 1, with each ratio rounded to hundredths |
| Reactions.RankByRatio | commands/reactions.py:110-123 | the loops rank the ratios sorted and cut to top_n |
| Reactions.Haters | commands/reactions.py:97-124 | the reactor ratios ranked ascending |
| Reactions.Popularity | commands/reactions.py:126-153 | the reactee ratios ranked descending |
| Reactions.RatioRankingListed | commands/reactions.py:110-120 | the ranking is sorted, has distinct users each with its true ratio, and holds min(top_n, users) entries for top_n ≥ 0 |
| Reactions.RatioRankingIsTop | commands/reactions.py:117-120 | each user left out ranks no better than every user listed |
| Reactions.ScoreIsUpMinusDown | commands/reactions.py:206-214 | a message's score is its upvotes minus its downvotes |
| Reactions.Scores | commands/reactions.py:206-216 | one score entry per message |
| Reactions.TopPostsListed | commands/reactions.py:206-219 | the top posts are sorted by score, distinct, with true scores, and LIMIT top_n of them |
| Reactions.TopPostsIsTop | commands/reactions.py:217-219 | a message left out scores no higher than any listed |
| Reactions.LinkOf | commands/reactions.py:229-236 | the link is that of the first channel holding the message, none when none does |
| Reactions.PostsOf | commands/reactions.py:226-238 | one numbered field per top post with its score and link |
| Reactions.TopAllTime | commands/reactions.py:201-239 | no scored message gives the no-posts reply; otherwise the numbered top posts |
| Reactions.FindLink | commands/reactions.py:229-236 | the channel loop stops at the first channel holding the message |
| Reactions.FirstFoundIsLink | commands/reactions.py:230-234 | the first channel that finds the message gives the link |
| Reactions.Filter | commands/reactions.py:163 | WHERE never yields more rows than the table has |
| Reactions.FilterMembers | commands/reactions.py:163 | WHERE keeps exactly the rows with that party |
| Reactions.FilterCommutes | commands/reactions.py:160-190 | two WHERE conditions commute |
| Reactions.CountEntries | commands/reactions.py:161-164 | COUNT(*) per group of the caller's rows |
| Reactions.CounterpartsListed | commands/reactions.py:160-167 | the list is sorted by count, distinct, with true counts, and LIMIT top_n long |
| Reactions.CounterpartsIsTop | commands/reactions.py:165-166 | a counterpart left out has no higher count than any listed |
| Reactions.ReacteesMirrorReactors | commands/reactions.py:183-190 | how often a reacted to b is counted the same from either side |
| Reactions.CountPlaces | commands/reactions.py:171-175 | ranks count from 1 |
| Reactions.Number | commands/reactions.py:171-175 | the numbering loop yields those ranks |
| Reactions.ReacteesCommand | commands/reactions.py:155-176 | the caller's reactees by count |
| Reactions.ReactorsCommand | commands/reactions.py:178-199 | the caller's reactors by count |
| Reactions.Leaderboard | commands/reactions.py:46-63 | a guild without karma rows or a top_n of 0 gives the no-data reply; otherwise only this guild's users, by karma descending, numbered from 1, with each left-out user ranking no higher, LIMIT top_n of them |
| Reactions.GuildEntries | commands/reactions.py:50 | one entry per user of the guild with that user's karma |
| Reactions.LeadersListed | commands/reactions.py:50-51 | the sorted, cut entries are this guild's users with their karma, best first |
| Text.ReplaceAllAbsent | commands/abbreviation.py:68 | `str.replace` of an absent pattern changes nothing |
| Text.ReplaceAllIdentity | commands/abbreviation.py:68 | replacing a pattern by itself changes nothing |
| Text.ReplaceFirstOfPrefix | bot.py:122 | replacing the first occurrence of a leading pattern swaps that prefix |
| Text.ReplaceFirstAbsent | bot.py:122 | replacing an absent pattern changes nothing |
| Text.TrimLeft | talk.py:63 | `lstrip()`: a suffix, and everything removed is whitespace |
| Text.TrimRight | talk.py:63 | `rstrip()`: a prefix, and everything removed is whitespace |
| Text.StripSpec | talk.py:63 | `strip()`: the slice left between two all-whitespace ends, starting and ending with non-whitespace |
| Text.Lower | bot.py:83 | ASCII lowercasing, character by character |
| Text.Take | commands/abbreviation.py:46 | `s[:n]`: the first min(n, len) characters of the text |
| Text.SplitOnCount | commands/image.py:103 | `split` gives one more part than separators, none of them containing it |
| Text.SplitOnJoin | commands/image.py:103 | joining the parts back with the separator gives the text |
| Text.JoinContains | commands/abbreviation.py:54 | every part occurs in the joined text |
| Text.NatToString | talk.py:69 | a non-empty digit string without a leading zero |
| Text.ParseNatOfNatToString | talk.py:81 | a number's text parses back to the number |
| Text.ParseIntOfIntToString | openai_helper.py:168 | `int(str(i)) == i` |

## Left out

- Discord and provider glue is not modelled. This covers gateway events, the command framework, embeds, cog setup, the help text, and the OpenAI and Stability HTTP requests. Fetches, member lookups, tool arguments, provider responses and HTTP statuses are parameters instead.
- Concurrency is not modelled. Interleaved handlers racing on the same usage or karma row are outside the model, and each operation runs on its own.
- Balances, prices and ratios are floats in the source and exact `real`s here, so float rounding is not captured.
- bot.py:131-186 is an unfinished copy of `handle_prompt_chain` and is not modelled. The model follows talk.py:15-110.
- talk.py:113-129 repeats personalization.py:6-21 line for line, so both are modelled by `Identity.GetAuthorInformation`.
- commands/abbreviation.py:6-31 repeats the command bodies, so it is not modelled separately.
- `update_usage` needs an initial balance (db.py:52), but openai_helper.py:232, 306 and 337 pass two arguments, and commands/image.py passes `initial_balance=0` and awaits the call. The model uses INITIAL_DABLOONS for the provider's debit and 0 for the image commands' own debits. The TypeErrors that would follow are not modelled.
- The `get_image` calls in commands/image.py:29, 181 and 201 do not match its definition at openai_helper.py:289. The model uses the intended call. Images.GenImage, Images.Dalle2 and Images.Dalle3Hd therefore debit twice: once through `get_image`'s pricing and once with the command's own fixed price.
- talk.py:102-108 passes penalty keyword arguments that `get_chat_response` does not accept. The model keeps them in the request's parameters and leaves the resulting error out.
- `requires_credit` is imported but not defined in the source, so no credit gate is modelled.
- `get_msg` is imported at commands/admin.py:12 and commands/replycommands.py:5, but discord_helper.py defines only `get_message_from_cache` and `reply_split`. `Talk.Fetch`, the fetch parameter of the admin and reply-command members, stands for that missing helper.
- `load_cogs` (bot.py:37-45) is never called, so no command module is registered by the code as written. The model treats the commands as reachable.
- The provider reply of `handle_prompt_chain` and its `reply_split` are not part of `Talk.HandlePromptChain`. It stops at the request sent to the provider. The chat loop and the chunking are modelled separately as `Provider.GetChatResponse` and `Delivery.ReplySplit`.
- Talk.WalkChain: the source loop is unbounded. The model walks at most `fuel` reference steps, and `Talk.ChainFromShape` names the fuel as the third way the walk can stop.
- Provider.GetChatResponse: the source's `while True` runs over a finite list of provider responses. A list that runs out before a reply is an outcome of its own, and the model states nothing beyond it.
- The regex engine is not modelled. The model scans exactly the directive and mention patterns. `\w`, `\s` and `\d` follow their ASCII sense, `\s` takes the code points of Python's `str.isspace`, and case folding is ASCII only.
- Text.Lower: `str.lower()` is limited to ASCII letters.
- Text.ParseInt and Text.ParseHex do not accept `_` digit separators or non-ASCII digits, which Python's `int()` does.
- History.QueryValue does not percent-decode, does not turn `+` into a space, and keeps literal text where `parse_qs` would decode it.
- Tokens.RoundHalfEven: Python's `round` works on floats, while this one works on exact reals, so the decimal errors of float products are not captured.
- Reactions.Hundredths is stated only as within 0.005 of its argument, not as the exact float result of `round(x, 2)`.
- Reactions.Haters does not fix the order of users with equal ratios. Python's stable sort keeps it, and the lemmas only constrain entries with different keys.
- Reactions.Popularity does not fix the order of users with equal ratios either.
- Reactions.TopAllTime does not fix the order of messages with equal scores, which SQL ORDER BY leaves unspecified.
- Reactions.ReacteesCommand does not fix the order of equal counts, which ORDER BY leaves unspecified.
- Reactions.ReactorsCommand does not fix the order of equal counts either.
- Reactions.Leaderboard does not fix the order of equal karma values, and collects the guild's rows in an arbitrary order.
- `fetch_user` display names in the ranking embeds are not modelled. Fields carry the user ids, and embed titles and colours are left out.
- `get_reaction_details` (commands/reactions.py:34-40) only returns the table's rows and has no member of its own.
- The reactions schema at db.py:33-40 does not match the columns the queries use. The model follows the queries: reactor, reactee, message and emoji.
- The store helpers `add_reaction`, `remove_reaction`, `get_name`, `set_name`, `get_description`, `set_description` and the abbreviation store are not part of db.py in the source. They are modelled as map and sequence operations keyed as their callers use them.
- Db.Database.GetAbbreviation states only whether a key is found. The value is stated by `Db.FindEntry`.
- User ids, message ids and guild ids are natural numbers. A negative id passed to `tokens` or `stats` finds no row.
- The `rs` and `rw` wrappers are pure functions. `Rs` stops at the prompt chain it starts, which is `Talk.HandlePromptChain`.
- The `!rs` resend records a failed fetch of the original as `ResendFailed`. The text of the exception is not modelled.
- The admin commands `printusage`, `droptable`, `profilememory` and `modifykarma` are outside the core. `scrapedata`'s JSON file write and a channel history that raises are left out. Message ids are numbers in the model, although the schema declares them TEXT.
- The `{:,}` formatting, `str()` of float amounts and embed layout in tokens, admin and reactions replies are not modelled. Replies carry the numbers.
- The random purge, tiktoken counting, `clean_messages` and the HEAD/GET checks of `fix_cdn_url` (messages.py:28-33, 69-79, 95-148) use randomness, token counting or the network, and are left out. So are the JSON reads and writes of the insult list and TTS (`get_tts`, commands/tts.py).
- The random draws and the clock of safety.py and commands/fun.py are parameters: `roll`, `now` and `pick`.
- The daily reset reads the date in US/Eastern each hour. The model takes the sequence of dates read.
- `get_personality` is a file read and enters `Talk.HandlePromptChain` as the parameter `personality`.

## Design versus code

- The reaction ledger's design calls a second add of the same (message, reactor, emoji) a no-op for karma, and a remove of an absent reaction a no-op as well. bot.py:202-207 and bot.py:223-228 apply the karma delta on every event whatever the reaction table holds. The model follows the code: Bot.OnReactionAdd and Bot.OnReactionRemove always change karma for an up or down vote, and only the reaction row is idempotent.
- The design describes a credit gate in front of the provider call. The code's gate, `requires_credit`, is undefined, so the model has none.

## Findings

| source | as written | input that shows it | evidently intended | confidence | as-written member | corrected member |
|---|---|---|---|---|---|---|
| db.py:89-98 | `update_karma` inserts only when `get_karma` returns None, but `get_karma` returns 0 for a missing row, so the INSERT never runs and the UPDATE matches no row | an empty karma table and `update_karma(g, u, 1)`, the first upvote a user ever receives: afterwards `get_karma(g, u)` is still 0 | a missing row is inserted with karma `delta` | not executed | Ledger.AddKarmaAsWritten (shown by Ledger.FirstKarmaIsLost) | Ledger.AddKarma (used by Db.Database.UpdateKarma) |
