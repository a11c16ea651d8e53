# Tajwid onboarding bot — a Dafny model

The Tajwid bot registers students of a Quran-reading course through Telegram.
A user presses /start (or a referral link `/start <referrerId>`) and walks through a
step machine:

- the normal registration (flow 1): school-channel check, consent, name, age,
  children, phone, reading level, course-channel check;
- the referral-program offer (flow 2): terms, then the personal link;
- the referral entry (flow 3);
- the registration of a referred user (flow 4).

When a referred user confirms the course channel, the referral ledger credits the referrer
exactly once. The model also covers:

- the Telegram edge: the webhook JSON mapper, the membership filter, the runtime course-channel
  registry, the reply-markup builder and the send guard;
- the subscription checks, as a stub and against Telegram;
- the scheduled automations: delayed referral announcements and pending referral awards;
- the admin CSV export, and the public and admin children queries.

The model is purely functional:

- the database is a `Store` of users, flow contexts, ledger rows and tags;
- a bot update becomes an `Outcome`, the new store plus the messages to send;
- the clock, the subscription oracle, event ids and configuration arrive as an `Env`.

Modules follow the program's structure:

| module | covers |
|---|---|
| `Domain` | the entities and `ReadingLevel` |
| `Persistence` | the repository queries |
| `Ledger` | `ReferralBonusService` |
| `Subscription` | the stub, the Telegram check and the runtime registry |
| `JsonNode`, `UpdateMapper`, `Webhook`, `ApiClient` | the Telegram side |
| `FlowInput`, `FlowEngine`, `FlowAutomation`, `FlowProperties` | `BotFlowService` |
| `CsvExport` | `AdminExportService` |
| `PublicChildren`, `AdminChildren` | the children services |
| `JavaText`, `Decimal`, `Messages`, `Wrappers` | the Java string and number behaviour the code relies on |

After /start with the school channel already subscribed, `startNormalFlow` sends the
welcome with a Continue button and waits at FLOW1_WAIT_INTRO_CONTINUE; consent is asked
only after that button.

## Model


| member | source | states |
|---|---|---|
| Domain.IncInt32 | src/main/java/ru/muslim/tajwid/domain/UserEntity.java:106-108 | adding one to a Java int: one more below 2^31-1, wraps to -2^31 at the top |
| Domain.IncrementReferralPoints | src/main/java/ru/muslim/tajwid/domain/UserEntity.java:106-108 | the points go up by exactly one with Java int wrap-around, and no other field of the user changes |
| Domain.NewUser | src/main/java/ru/muslim/tajwid/domain/UserEntity.java:60-74 | a fresh profile has referrer 0 and 0 points, is not registered, has no consent and neither channel flag, has status NOT_APPLICABLE, completion and counted times at the epoch, no referral link, and no creation or update time yet |
| Domain.UserOnCreate | src/main/java/ru/muslim/tajwid/domain/UserEntity.java:85-99 | on insert both timestamps become now; a missing completion time, counted time or status gets its default, a present one is kept; all other fields are untouched |
| Domain.UserOnUpdate | src/main/java/ru/muslim/tajwid/domain/UserEntity.java:101-104 | on update only updatedAt changes, to now |
| Domain.UserCreateThenUpdate | src/main/java/ru/muslim/tajwid/domain/UserEntity.java:85-104 | insert at t0 then update at t1 leaves createdAt t0, updatedAt t1, every not-null column set, and the status defaulted only if it was missing |
| Domain.NewContext | src/main/java/ru/muslim/tajwid/domain/FlowContextEntity.java:35-41 | a fresh context is IDLE, NORMAL, with no referrer and the announcement not sent |
| Domain.ContextOnCreate | src/main/java/ru/muslim/tajwid/domain/FlowContextEntity.java:92-103 | on insert both timestamps become now; a missing step becomes IDLE and a missing flow type NORMAL; nothing else changes |
| Domain.ContextOnUpdate | src/main/java/ru/muslim/tajwid/domain/FlowContextEntity.java:105-108 | on update only updatedAt changes |
| Domain.ContextCreateThenUpdate | src/main/java/ru/muslim/tajwid/domain/FlowContextEntity.java:92-108 | insert then update keeps the insert time, stamps the update time and keeps a present step |
| Domain.UsageOnCreate | src/main/java/ru/muslim/tajwid/domain/ReferralLinkUsageEntity.java:40-58 | a ledger row is stamped with now on insert; a missing countedAt becomes the epoch; nothing else changes |
| Domain.Ordinal | src/main/java/ru/muslim/tajwid/domain/ReadingLevel.java:5-10 | the ordinal is the level's position in declaration order |
| Domain.FromLabel | src/main/java/ru/muslim/tajwid/domain/ReadingLevel.java:22-27 | succeeds only with a level whose label is the text, and fails exactly when no level has that label (including null) |
| Domain.FromLabelOfLabel | src/main/java/ru/muslim/tajwid/domain/ReadingLevel.java:5-27 | every level is found again from its own label, so the five labels are pairwise distinct |
| Domain.ValueOf | src/main/java/ru/muslim/tajwid/domain/ReadingLevel.java:5-10 | Enum.valueOf: the level with that constant name, none exactly when no constant has it |
| Domain.ValueOfName | src/main/java/ru/muslim/tajwid/domain/ReadingLevel.java:5-10 | every level is found again from its constant name |
| Persistence.ById | src/main/java/ru/muslim/tajwid/service/AdminExportService.java:209-221 | findAll sorted by user id: every row of the table exactly once, in ascending id |
| Persistence.Insert | src/main/java/ru/muslim/tajwid/service/AdminExportService.java:223-239 | the insertion step of `Persistence.SortBy`, which models the `Sort` these lines pass to findAll: one row put into a sorted list keeps it sorted and adds exactly that row |
| Persistence.SortBy | src/main/java/ru/muslim/tajwid/service/AdminExportService.java:223-239 | findAll with a sort: the same rows as a multiset, with ascending keys and null keys last |
| Persistence.FindByIdempotencyKey | src/main/java/ru/muslim/tajwid/service/ReferralBonusService.java:48-49 | finds a stored row with that key, and none exactly when no row has it |
| Persistence.FindByPair | src/main/java/ru/muslim/tajwid/service/ReferralBonusService.java:48-51 | finds a stored row for that referrer and invitee, and none exactly when no such row exists |
| Persistence.AssignTag | src/main/java/ru/muslim/tajwid/service/BotFlowService.java:1342-1351 | the tag is present afterwards; an existing tag leaves the store unchanged; no other tag or table changes |
| Ledger.FindExisting | src/main/java/ru/muslim/tajwid/service/ReferralBonusService.java:48-51 | the matching row is looked up by idempotency key first, then by pair; none exactly when neither lookup finds one |
| Ledger.EnsureCounted | src/main/java/ru/muslim/tajwid/service/ReferralBonusService.java:86-93 | the invitee ends up COUNTED; an already counted invitee is untouched; otherwise the counted time is the row's or now; nothing else changes |
| Ledger.ProcessReferralEvent | src/main/java/ru/muslim/tajwid/service/ReferralBonusService.java:26-84 | an invalid event changes nothing and reports invalid; only the referrer's points and the invitee's status can change; the ledger grows by one appended row only on a new credit; a new credit is always valid, counted and not an anomaly |
| Ledger.ProcessOutcomes | src/main/java/ru/muslim/tajwid/service/ReferralBonusService.java:26-60 | valid exactly when the payload is complete, not a self-referral, and both profiles exist; a matched counted row repeats the old total without a new credit and marks the invitee; a matched uncounted row is an anomaly that changes nothing; no match credits |
| Ledger.FirstCredit | src/main/java/ru/muslim/tajwid/service/ReferralBonusService.java:63-83 | a valid first event appends one counted row carrying the event's key and id, adds one point to the referrer, marks the invitee COUNTED at now, and reports the new total |
| Ledger.NoSecondCredit | src/main/java/ru/muslim/tajwid/service/ReferralBonusService.java:48-57 | once a counted row exists for the pair, a further event adds no row and no points and reports already counted |
| Ledger.PreservesUniqueness | src/main/java/ru/muslim/tajwid/service/ReferralBonusService.java:48-83 | the ledger keeps at most one row per pair and per idempotency key, and at most one row per event id whenever the event's id is carried by no row yet |
| Ledger.CreditLeavesRow | src/main/java/ru/muslim/tajwid/service/ReferralBonusService.java:63-74 | a pair's row never disappears, and a new credit leaves a row for its pair |
| Ledger.RunCalls | src/main/java/ru/muslim/tajwid/service/ReferralBonusService.java:26-84 | a sequence of events yields one result per event and never adds or removes a profile |
| Ledger.AtMostOneCreditPerPair | src/main/java/ru/muslim/tajwid/service/ReferralBonusService.java:26-84 | over any sequence of events a referrer is credited at most once per invitee, and never if the pair already had a row |
| Subscription.StubCheckSchool | src/main/java/ru/muslim/tajwid/service/StubChannelSubscriptionService.java:15-21 | never an error; SUBSCRIBED exactly when the user's stored school flag is set |
| Subscription.StubCheckCourse | src/main/java/ru/muslim/tajwid/service/StubChannelSubscriptionService.java:24-30 | never an error; SUBSCRIBED exactly when the user's stored course flag is set |
| Subscription.SetSubscriptionState | src/main/java/ru/muslim/tajwid/service/StubChannelSubscriptionService.java:32-34 | stores both flags for the user and leaves every other user's state alone |
| Subscription.GetSubscriptionState | src/main/java/ru/muslim/tajwid/service/StubChannelSubscriptionService.java:36-38 | an unknown user reads as not subscribed anywhere |
| Subscription.StubSetThenCheck | src/main/java/ru/muslim/tajwid/service/StubChannelSubscriptionService.java:15-38 | after setting a state both checks answer it for that user and are unchanged for everyone else |
| Subscription.RememberCourseChannelId | src/main/java/ru/muslim/tajwid/telegram/TelegramRuntimeChannelRegistry.java:23-42 | a blank or missing id is ignored; otherwise the trimmed id replaces what was stored |
| Subscription.LastWriteWins | src/main/java/ru/muslim/tajwid/telegram/TelegramRuntimeChannelRegistry.java:19-42 | after a series of writes the registry holds the last non-blank one, or its old value if there was none |
| Subscription.GetChatMemberStatus | src/main/java/ru/muslim/tajwid/telegram/TelegramApiClientImpl.java:69-84 | a status comes back exactly when the token is set and the reply is ok with a result; otherwise the call fails |
| Subscription.CheckChannelMembership | src/main/java/ru/muslim/tajwid/telegram/TelegramChannelSubscriptionService.java:44-59 | a blank channel id is an error; member, administrator and creator are SUBSCRIBED; another status is NOT_SUBSCRIBED; a failed call is an error |
| Subscription.TelegramCheckCourse | src/main/java/ru/muslim/tajwid/telegram/TelegramChannelSubscriptionService.java:34-42 | the configured course channel wins; without one the runtime registry's channel is asked, and with neither it is an error |
| JsonNode.ParseLongNode | src/main/java/ru/muslim/tajwid/telegram/TelegramUpdateMapper.java:93-111 | a number node gives its value when it is a long and throws otherwise (Jackson's longValue); a text node gives its parsed long or none; any other, null or missing node gives none |
| JsonNode.ParseLongNodeRoundTrip | src/main/java/ru/muslim/tajwid/telegram/TelegramUpdateMapper.java:93-111 | an id sent as a number or as its decimal text reads back as the same long |
| JsonNode.TextOrNull | src/main/java/ru/muslim/tajwid/telegram/TelegramUpdateMapper.java:113-120 | a missing or null node, or blank text, gives none; non-blank text is returned as is |
| JsonNode.TextOrFallback | src/main/java/ru/muslim/tajwid/telegram/TelegramWebhookService.java:175-182 | the node's non-blank text, or the fallback when there is none |
| UpdateMapper.MapUpdate | src/main/java/ru/muslim/tajwid/telegram/TelegramUpdateMapper.java:20-36 | a null update maps to nothing; a callback query takes precedence over a message, and a throw while mapping it leaves the mapper; an update with neither maps to nothing |
| UpdateMapper.MapMessage | src/main/java/ru/muslim/tajwid/telegram/TelegramUpdateMapper.java:38-52 | throws exactly when the sender id is an out-of-range number or, with a sender, the contact's id is; maps to nothing exactly when the sender id does not parse; otherwise carries the resolved first name, the text and the contact |
| UpdateMapper.MapCallback | src/main/java/ru/muslim/tajwid/telegram/TelegramUpdateMapper.java:54-73 | throws exactly when the sender id is an out-of-range number; maps exactly when the sender id parses and the data is non-blank; it carries no text or contact |
| UpdateMapper.ParseContact | src/main/java/ru/muslim/tajwid/telegram/TelegramUpdateMapper.java:75-91 | throws exactly when it is an object whose user_id is an out-of-range number; a contact exists exactly when it is an object with a parsable user id and a non-blank phone number |
| UpdateMapper.ResolveFirstName | src/main/java/ru/muslim/tajwid/telegram/TelegramUpdateMapper.java:122-134 | first_name, else username, else the default name; never blank |
| UpdateMapper.TextMessageRoundTrip | src/main/java/ru/muslim/tajwid/telegram/TelegramUpdateMapper.java:20-52 | the JSON of a text message maps back to the request with the same user, first name and text |
| UpdateMapper.CallbackRoundTrip | src/main/java/ru/muslim/tajwid/telegram/TelegramUpdateMapper.java:20-73 | the JSON of a button press maps back to the request with the same user, first name and callback data, even with a text message object alongside: the callback wins |
| UpdateMapper.OutOfRangeSenderThrows | src/main/java/ru/muslim/tajwid/telegram/TelegramUpdateMapper.java:38-42 | a text message whose sender id is a number outside the long range does not map to nothing but throws |
| Webhook.NormalizeId | src/main/java/ru/muslim/tajwid/telegram/TelegramWebhookService.java:184-186 | a missing id is empty, a present one is trimmed |
| Webhook.IsCourseChannelChat | src/main/java/ru/muslim/tajwid/telegram/TelegramWebhookService.java:79-87 | with a configured course id the chat must equal it; otherwise it must equal the remembered runtime id |
| Webhook.ConfiguredCourseIdWins | src/main/java/ru/muslim/tajwid/telegram/TelegramWebhookService.java:79-87 | with a configured course id the runtime registry has no influence on the decision |
| Webhook.MaybeRemember | src/main/java/ru/muslim/tajwid/telegram/TelegramWebhookService.java:139-154 | a detected channel is remembered only when no course id is configured and it is not the school channel |
| Webhook.RememberedOnlyWhenUnconfigured | src/main/java/ru/muslim/tajwid/telegram/TelegramWebhookService.java:139-154 | any change of the registry implies no course id is configured, the chat is not the school channel, and the trimmed chat id is stored |
| Webhook.ChannelChatId | src/main/java/ru/muslim/tajwid/telegram/TelegramWebhookService.java:103-124 | a chat id is read, through parseLong and so possibly throwing, only from an object field whose chat has type "channel" |
| Webhook.DetectChannel | src/main/java/ru/muslim/tajwid/telegram/TelegramWebhookService.java:103-137 | throws exactly when the channel chat's id does; a field without a channel chat leaves the registry alone; a channel chat is offered for remembering |
| Webhook.DetectFields | src/main/java/ru/muslim/tajwid/telegram/TelegramWebhookService.java:32-34 | the three detections run in order and the run throws exactly when one of the fields holds a channel chat whose id is an out-of-range number |
| Webhook.DetectFieldsKeepsConfigured | src/main/java/ru/muslim/tajwid/telegram/TelegramWebhookService.java:32-34 | with a course id configured, any run of detections leaves the registry as it was |
| Webhook.DetectAllKeepsConfigured | src/main/java/ru/muslim/tajwid/telegram/TelegramWebhookService.java:32-34 | with a course id configured no update changes the runtime registry, even one whose detection throws |
| Webhook.MembershipTarget | src/main/java/ru/muslim/tajwid/telegram/TelegramWebhookService.java:47-77 | throws exactly when the chat id, or on the course channel the new member's id, is an out-of-range number; a user is confirmed exactly when a chat_member update is for the course channel, the new member's id parses and the new status is member, administrator or creator |
| Webhook.JoiningCourseChannelConfirms | src/main/java/ru/muslim/tajwid/telegram/TelegramWebhookService.java:47-77 | joining the course channel with a subscribed status confirms that user; any other status confirms no one |
| Webhook.SendMessages | src/main/java/ru/muslim/tajwid/telegram/TelegramWebhookService.java:89-101 | every message is attempted once and in order, whatever happened to the others |
| Webhook.FailureDoesNotStopDelivery | src/main/java/ru/muslim/tajwid/telegram/TelegramWebhookService.java:89-101 | a message Telegram accepts is delivered even when earlier sends failed |
| Webhook.MembershipStep | src/main/java/ru/muslim/tajwid/telegram/TelegramWebhookService.java:47-77 | no confirmed user means no change and no messages; the store stays keyed by user id |
| Webhook.RequestStep | src/main/java/ru/muslim/tajwid/telegram/TelegramWebhookService.java:38-44 | an update that maps to no request never reaches the flow engine; a mapped one saves that user's context |
| Webhook.ProcessUpdate | src/main/java/ru/muslim/tajwid/telegram/TelegramWebhookService.java:31-45 | the registry is updated first, then the membership confirmation runs, then the mapped request, with all their messages sent in that order; it throws exactly when one of those reads an out-of-range number, keeping what came before and doing nothing after; an unmappable non-membership update changes nothing and sends nothing |
| ApiClient.InlineKey | src/main/java/ru/muslim/tajwid/telegram/TelegramApiClientImpl.java:150-166 | a callback or URL button becomes an inline key; a contact button has no inline form |
| ApiClient.BuildReplyMarkup | src/main/java/ru/muslim/tajwid/telegram/TelegramApiClientImpl.java:119-174 | no buttons give no markup; any contact button makes a one-time resized reply keyboard of contact keys only; otherwise one inline key per button |
| ApiClient.ContactRowShape | src/main/java/ru/muslim/tajwid/telegram/TelegramApiClientImpl.java:124-148 | the contact row holds only contact keys and is empty exactly when there is no contact button |
| ApiClient.InlineRowShape | src/main/java/ru/muslim/tajwid/telegram/TelegramApiClientImpl.java:150-173 | without contact buttons the inline row has one key per button, in order |
| ApiClient.SendMessage | src/main/java/ru/muslim/tajwid/telegram/TelegramApiClientImpl.java:39-66 | a message without a recipient or text is skipped; a missing token throws; otherwise the payload is delivered exactly when Telegram accepts it |
| CsvExport.EscapeCsvValue | src/main/java/ru/muslim/tajwid/service/AdminExportService.java:260-276 | null is empty; text without comma, quote or line break is kept; a value is quoted exactly when it needs quoting |
| CsvExport.AppendCsvRow | src/main/java/ru/muslim/tajwid/service/AdminExportService.java:250-258 | appends the escaped values joined by commas and a newline |
| CsvExport.AppendJoined | src/main/java/ru/muslim/tajwid/service/AdminExportService.java:251-256 | appends the parts with a comma before every part but the first |
| CsvExport.AppendRows | src/main/java/ru/muslim/tajwid/service/AdminExportService.java:244-246 | appends every row's record, in order |
| CsvExport.BuildCsv | src/main/java/ru/muslim/tajwid/service/AdminExportService.java:241-248 | the header line followed by one line per row, in order |
| CsvExport.ReadFieldEscaped | src/main/java/ru/muslim/tajwid/service/AdminExportService.java:260-276 | a CSV reader gets every escaped value back as its original text |
| CsvExport.ReadRecordRow | src/main/java/ru/muslim/tajwid/service/AdminExportService.java:250-258 | a written row reads back as its cell texts |
| CsvExport.ParseCsvText | src/main/java/ru/muslim/tajwid/service/AdminExportService.java:241-276 | a written document reads back as the header followed by every row's cell texts |
| CsvExport.UserCells | src/main/java/ru/muslim/tajwid/service/AdminExportService.java:41-98 | a users row has one cell per header column (23) |
| CsvExport.ContextCells | src/main/java/ru/muslim/tajwid/service/AdminExportService.java:100-159 | a flow-context row has one cell per header column (24) |
| CsvExport.TagCells | src/main/java/ru/muslim/tajwid/service/AdminExportService.java:161-174 | a user-tag row has one cell per header column (3) |
| CsvExport.UsageCells | src/main/java/ru/muslim/tajwid/service/AdminExportService.java:176-207 | a ledger row has one cell per header column (10) |
| CsvExport.WriteCsv | src/main/java/ru/muslim/tajwid/service/AdminExportService.java:241-248 | what buildCsv writes reads back, by an independent CSV reader, as exactly the header and the rows' cells |
| CsvExport.ExportUsersCsv | src/main/java/ru/muslim/tajwid/service/AdminExportService.java:41-98 | the users export reads back as its header and one record per user, the users in ascending user id |
| CsvExport.ExportFlowContextsCsv | src/main/java/ru/muslim/tajwid/service/AdminExportService.java:100-159 | the flow-context export reads back as its header and one record per context, in ascending user id |
| CsvExport.ExportUserTagsCsv | src/main/java/ru/muslim/tajwid/service/AdminExportService.java:161-174 | the tag export reads back as its header and one record per tag row, the rows a permutation of the table sorted by user id and then creation time |
| CsvExport.ExportReferralLinkUsagesCsv | src/main/java/ru/muslim/tajwid/service/AdminExportService.java:176-207 | the ledger export reads back as its header and one record per ledger row, the rows a permutation of the table sorted by trigger time and then creation time, missing times last |
| PublicChildren.AgeOf | src/main/java/ru/muslim/tajwid/service/PublicChildrenService.java:82-90 | a blank piece is skipped; a kept age fits a Java int |
| PublicChildren.ParseChildrenAges | src/main/java/ru/muslim/tajwid/service/PublicChildrenService.java:74-93 | null or blank text gives no ages; every age returned fits a Java int |
| PublicChildren.ChildrenAgesRoundTrip | src/main/java/ru/muslim/tajwid/service/PublicChildrenService.java:74-93 | ages written comma-separated read back as the same list |
| PublicChildren.Digits | src/main/java/ru/muslim/tajwid/service/PublicChildrenService.java:101-106 | keeps only digits, keeps an all-digit text as is, and empties a digit-free one |
| PublicChildren.DigitsConcat | src/main/java/ru/muslim/tajwid/service/PublicChildrenService.java:101-106 | stripping non-digits distributes over concatenation |
| PublicChildren.NormalizePhone | src/main/java/ru/muslim/tajwid/service/PublicChildrenService.java:101-106 | the result is digits only; null is empty; a digits-only phone is unchanged |
| PublicChildren.PhonesMatchSymmetric | src/main/java/ru/muslim/tajwid/service/PublicChildrenService.java:95-99 | matching is symmetric, and a phone without digits matches nothing |
| PublicChildren.PunctuatedPhoneMatches | src/main/java/ru/muslim/tajwid/service/PublicChildrenService.java:95-106 | inserting a separator into a phone does not stop it matching |
| PublicChildren.HasAccess | src/main/java/ru/muslim/tajwid/service/PublicChildrenService.java:49-56 | access exactly when the id and a non-blank phone are given, the user exists and the phones match |
| PublicChildren.ToSelfResponse | src/main/java/ru/muslim/tajwid/service/PublicChildrenService.java:64-72 | the response carries the user's id, children count, parsed ages, study answer and reading level |
| PublicChildren.LookupSelf | src/main/java/ru/muslim/tajwid/service/PublicChildrenService.java:58-62 | a response exactly when access is granted, and then it describes the requested user |
| PublicChildren.CountPartition | src/main/java/ru/muslim/tajwid/service/PublicChildrenService.java:21-47 | users with and without children add up to all users; the three study answers add up to those with children |
| PublicChildren.GetStats | src/main/java/ru/muslim/tajwid/service/PublicChildrenService.java:21-47 | every counter is the number of users in its class, and the counters partition the totals |
| AdminChildren.NormalizeLimit | src/main/java/ru/muslim/tajwid/service/AdminChildrenService.java:142-150 | the limit lies in 1..MAX: null gives the default, non-positive gives 1, too large gives MAX |
| AdminChildren.Filter | src/main/java/ru/muslim/tajwid/service/AdminChildrenService.java:84-98 | a stream filter keeps exactly the elements satisfying the condition |
| AdminChildren.FilterFilter | src/main/java/ru/muslim/tajwid/service/AdminChildrenService.java:84-98 | two filters in a row are one filter by the conjunction |
| AdminChildren.PipelineIsOneFilter | src/main/java/ru/muslim/tajwid/service/AdminChildrenService.java:84-98 | the chain of filters keeps exactly the users passing every stage |
| AdminChildren.StagesMatch | src/main/java/ru/muslim/tajwid/service/AdminChildrenService.java:84-98 | passing the five stages is the same as matching the request |
| AdminChildren.SortedUsers | src/main/java/ru/muslim/tajwid/service/AdminChildrenService.java:84 | the users in id order, each user exactly once |
| AdminChildren.SearchUsers | src/main/java/ru/muslim/tajwid/service/AdminChildrenService.java:63-102 | an inverted count range gives nothing; otherwise the first `limit` matching users in id order |
| AdminChildren.SearchUsersSound | src/main/java/ru/muslim/tajwid/service/AdminChildrenService.java:63-102 | the result is sorted by id, holds only matching users, and when shorter than the limit holds every matching user |
| AdminChildren.SearchKeepsOrder | src/main/java/ru/muslim/tajwid/service/AdminChildrenService.java:84-99 | the result is a subsequence of the id-ordered users |
| AdminChildren.ToResponse | src/main/java/ru/muslim/tajwid/service/AdminChildrenService.java:104-119 | the response copies the user's fields and the parsed ages |
| AdminChildren.SearchInternal | src/main/java/ru/muslim/tajwid/service/AdminChildrenService.java:63-102 | one response per found user, never more than the limit |
| AdminChildren.Search | src/main/java/ru/muslim/tajwid/service/AdminChildrenService.java:49-61 | a missing request body searches with the empty request |
| AdminChildren.EmptySearch | src/main/java/ru/muslim/tajwid/service/AdminChildrenService.java:49-102 | the empty request returns the first default-limit users with at least one child |
| AdminChildren.GetUsers | src/main/java/ru/muslim/tajwid/service/AdminChildrenService.java:32-47 | the query parameters are the corresponding search request |
| AdminChildren.GetByUserId | src/main/java/ru/muslim/tajwid/service/AdminChildrenService.java:27-30 | a response exactly when the user exists, describing that user |
| FlowInput.ParseAge | src/main/java/ru/muslim/tajwid/service/BotFlowService.java:1388-1398 | the trimmed text is accepted exactly when it is an integer from 7 to 100, and then read as that integer |
| FlowInput.ParseYesNo | src/main/java/ru/muslim/tajwid/service/BotFlowService.java:1400-1411 | yes exactly for a yes-word, no exactly for a no-word, after trimming and lower-casing; anything else is neither |
| FlowInput.TwoWords | src/main/java/ru/muslim/tajwid/service/BotFlowService.java:165-186 | "/start x" splits on whitespace into the command and its argument |
| FlowInput.ParseTags | src/main/java/ru/muslim/tajwid/service/BotFlowService.java:1353-1367 | the stored temp tags read as a duplicate-free list of trimmed, non-empty, comma-free tags; null or blank reads as none |
| FlowInput.ParseJoin | src/main/java/ru/muslim/tajwid/service/BotFlowService.java:1353-1367 | a clean tag list written comma-separated reads back as itself |
| FlowInput.TempTagsAccumulate | src/main/java/ru/muslim/tajwid/service/BotFlowService.java:1330-1334 | adding a temp tag adds it once to the parsed list and keeps the others |
| FlowInput.BuildReferralLink | src/main/java/ru/muslim/tajwid/service/BotFlowService.java:1413-1422 | the link is longer than the query part plus the referrer id |
| FlowInput.LinkCarriesReferrer | src/main/java/ru/muslim/tajwid/service/BotFlowService.java:1413-1422 | the text after the link's last `?start=` is the referrer id as Long.toString prints it, and Long.parseLong reads it back as that id |
| FlowInput.IdempotencyKey | src/main/java/ru/muslim/tajwid/service/BotFlowService.java:1424-1426 | the key starts with "ref:" |
| FlowInput.IdempotencyKeyInjective | src/main/java/ru/muslim/tajwid/service/BotFlowService.java:1424-1426 | distinct referrer/invitee pairs never share a key |
| FlowInput.NormalizeUsername | src/main/java/ru/muslim/tajwid/service/BotFlowService.java:1439-1448 | the stored username is the trimmed value with one leading '@' removed, and null when nothing is left; a missing or blank value is dropped, and a trimmed value without a leading '@' is kept as it is |
| FlowInput.ParseReadingLevel | src/main/java/ru/muslim/tajwid/service/BotFlowService.java:1369-1376 | the level found is the one named by the text after the prefix, and there is none exactly when no level has that name |
| JavaText.Trim | src/main/java/ru/muslim/tajwid/service/BotFlowService.java:1428-1437 | String.trim removes exactly the leading and trailing characters up to U+0020 |
| JavaText.TrimIdempotent | src/main/java/ru/muslim/tajwid/service/BotFlowService.java:1428-1437 | trimming twice is trimming once |
| JavaText.Normalize | src/main/java/ru/muslim/tajwid/service/BotFlowService.java:1428-1437 | a value survives only when its trimmed text is non-empty, and then as that trimmed text |
| JavaText.SplitJoin | src/main/java/ru/muslim/tajwid/service/PublicChildrenService.java:80 | splitting a separator-joined list gives the list back |
| Decimal.ParseLong | src/main/java/ru/muslim/tajwid/service/BotFlowService.java:175-178 | Long.parseLong: the signed decimal value when it fits 64 bits, none otherwise |
| Decimal.ParseInt | src/main/java/ru/muslim/tajwid/service/BotFlowService.java:1388-1398 | Integer.parseInt: the signed decimal value when it fits 32 bits, none otherwise |
| Decimal.ParseLongShow | src/main/java/ru/muslim/tajwid/service/BotFlowService.java:1413-1422 | the decimal text of a long parses back to it |
| Decimal.ShowInjective | src/main/java/ru/muslim/tajwid/service/BotFlowService.java:1424-1426 | different numbers have different decimal texts |
| FlowEngine.DefaultContext | src/main/java/ru/muslim/tajwid/service/BotFlowService.java:1485-1494 | a new context for the user and first name, IDLE, NORMAL, without referrer |
| FlowEngine.LoadContext | src/main/java/ru/muslim/tajwid/service/BotFlowService.java:94-95 | the stored context, or a default one when none is stored |
| FlowEngine.Refreshed | src/main/java/ru/muslim/tajwid/service/BotFlowService.java:94-97 | the loaded context with the request's first name and normalised username, nothing else changed |
| FlowEngine.SaveContext | src/main/java/ru/muslim/tajwid/service/BotFlowService.java:104-130 | only that user's context row is written (stamped when new); every other row and table is unchanged |
| FlowEngine.Reset | src/main/java/ru/muslim/tajwid/service/BotFlowService.java:1450-1475 | a reset context is a default one of the given flow type that keeps only the username and timestamps |
| FlowEngine.SetIdle | src/main/java/ru/muslim/tajwid/service/BotFlowService.java:1477-1483 | IDLE, NORMAL, no referrer, no announcement pending; all other fields kept |
| FlowEngine.WithTempTag | src/main/java/ru/muslim/tajwid/service/BotFlowService.java:1330-1334 | the context's tag list gains the tag once; no other field changes |
| FlowEngine.FrameTransitive | src/main/java/ru/muslim/tajwid/service/BotFlowService.java:93-131 | two handler steps in a row keep earlier messages, never drop users or tags and touch no other user's context |
| FlowEngine.LevelButtons | src/main/java/ru/muslim/tajwid/service/BotFlowService.java:942-953 | one button per reading level in declaration order, labelled by the level, with the prefix plus the level name as data |
| FlowEngine.AdminNotices | src/main/java/ru/muslim/tajwid/service/BotFlowService.java:1091-1119 | one registration notice per admin recipient, in order, and no admin notified twice because the recipients are a set |
| FlowEngine.Classify | src/main/java/ru/muslim/tajwid/service/BotFlowService.java:101-130 | text starting with /start wins, then a callback, then a contact, then other text; an empty update is none of these |
| FlowEngine.StartNormalFlow | src/main/java/ru/muslim/tajwid/service/BotFlowService.java:188-213 | the context is reset to flow 1; a subscribed school goes to the intro wait with the welcome, anything else to the school recheck with the subscribe-first welcome |
| FlowEngine.StartReferralFlow | src/main/java/ru/muslim/tajwid/service/BotFlowService.java:215-250 | a self-referral or unknown referrer and an already referred user end idle with their error; otherwise the referral is recorded and the school recheck of flow 3 begins |
| FlowEngine.HandleStartCommand | src/main/java/ru/muslim/tajwid/service/BotFlowService.java:165-186 | a bare /start starts flow 1; a non-numeric argument sets the context idle with the unusable-link message; a numeric one starts the referral flow |
| FlowEngine.MarkCourseSubscribed | src/main/java/ru/muslim/tajwid/service/BotFlowService.java:669-673 | only the user's course flag is set |
| FlowEngine.StartFlow2 | src/main/java/ru/muslim/tajwid/service/BotFlowService.java:964-973 | the step becomes FLOW2_WAIT_TERMS and nothing else changes |
| FlowEngine.CreditPayload | src/main/java/ru/muslim/tajwid/service/BotFlowService.java:676-686 | the event names referrer, invitee, their key, source, now and link, and is valid exactly when the source is non-blank |
| FlowEngine.Credit | src/main/java/ru/muslim/tajwid/service/BotFlowService.java:676-698 | a PENDING invitee with a referrer is sent to the ledger and the referrer is told exactly on a new credit; otherwise nothing happens |
| FlowEngine.LedgerKeepsProfiles | src/main/java/ru/muslim/tajwid/service/ReferralBonusService.java:26-93 | the ledger changes no profile field except the invitee's status and the referrer's points |
| FlowEngine.ConfirmCourse | src/main/java/ru/muslim/tajwid/service/BotFlowService.java:659-698 | an unknown user changes nothing; otherwise the course flag and tag are set, the invitee's status only moves to COUNTED, and only credit notices are sent |
| FlowEngine.ConfirmUser | src/main/java/ru/muslim/tajwid/service/BotFlowService.java:669-698 | the confirmation for a stored user sets the course flag and tag and keeps the user's points |
| FlowEngine.MarkConfirmed | src/main/java/ru/muslim/tajwid/service/BotFlowService.java:669-674 | the course flag and the confirmed tag are set and nothing else changes |
| FlowEngine.ConfirmCourseWith | src/main/java/ru/muslim/tajwid/service/BotFlowService.java:659-711 | a context waiting for the course moves to flow 2 and is saved, with the announcement after the credit notices; any other context is left alone |
| FlowEngine.OnFlow1IntroContinue | src/main/java/ru/muslim/tajwid/service/BotFlowService.java:289-298 | only at the intro wait: move to the consent wait and ask for consent; otherwise nothing |
| FlowEngine.GateOpen | src/main/java/ru/muslim/tajwid/service/BotFlowService.java:308-313 | a subscribed school channel: the store is untouched, the subscribed flag and tag are set, the step becomes the consent step and the consent request is appended |
| FlowEngine.GateClosed | src/main/java/ru/muslim/tajwid/service/BotFlowService.java:316-329 | an unsubscribed or unreadable channel: the store is untouched, the step becomes the recheck step and exactly the reply is appended |
| FlowEngine.SchoolGate | src/main/java/ru/muslim/tajwid/service/BotFlowService.java:300-330 | the press is tagged and exactly one reply is appended with the store untouched; the consent step, the subscribed flag and tag and the consent request come exactly with SUBSCRIBED; ERROR and NOT_SUBSCRIBED stay at the recheck step with their own message and buttons; no other user's context changes |
| FlowEngine.OnFlow1SchoolRecheck | src/main/java/ru/muslim/tajwid/service/BotFlowService.java:300-330 | the click is tagged, the store is untouched and one reply is sent; the flow-1 consent step, the subscribed flag and tag come exactly when the school channel is subscribed, otherwise the flow-1 recheck step with the error or not-yet message |
| FlowEngine.OnFlow3SchoolRecheck | src/main/java/ru/muslim/tajwid/service/BotFlowService.java:440-476 | without a referral context only the missing-context hint, nothing else changes; otherwise the school gate with the flow-3 steps and messages |
| FlowEngine.OnFlow1ConsentContinue | src/main/java/ru/muslim/tajwid/service/BotFlowService.java:332-344 | only at the consent wait: record consent and ask for the name |
| FlowEngine.OnFlow3ConsentContinue | src/main/java/ru/muslim/tajwid/service/BotFlowService.java:478-489 | only at the referral consent wait: record consent and ask for the name in flow 4 |
| FlowEngine.OnFlow1CourseRecheck | src/main/java/ru/muslim/tajwid/service/BotFlowService.java:346-378 | only at the course recheck: subscribed confirms and starts flow 2; otherwise an error or not-yet message and no change |
| FlowEngine.OnFlow4CourseClickConfirmed | src/main/java/ru/muslim/tajwid/service/BotFlowService.java:491-523 | only at the course-link wait: subscribed runs the course confirmation; otherwise an error or not-yet message |
| FlowEngine.OnFlow2Terms | src/main/java/ru/muslim/tajwid/service/BotFlowService.java:380-398 | at the terms wait the terms are shown and the link is awaited; otherwise the restart hint |
| FlowEngine.ShowLink | src/main/java/ru/muslim/tajwid/service/BotFlowService.java:433-437 | the link and the footer are sent and the context goes idle |
| FlowEngine.IssueLink | src/main/java/ru/muslim/tajwid/service/BotFlowService.java:414-431 | a new link that fits the column is stored, tagged and shown; a too-long one gives the retry message and the link wait |
| FlowEngine.StoreLink | src/main/java/ru/muslim/tajwid/service/BotFlowService.java:420-422 | the user's link is set and the got-link tag assigned; nothing else changes |
| FlowEngine.OnFlow2ShowLink | src/main/java/ru/muslim/tajwid/service/BotFlowService.java:400-438 | an unknown user is told to register; a tagged user with a stored link sees it without any write; otherwise a new link is issued |
| FlowEngine.FinalizeHasChildren | src/main/java/ru/muslim/tajwid/service/BotFlowService.java:847-869 | no children: count 0 and the phone request; children: the study question; the age fields are cleared either way |
| FlowEngine.FinalizeChildrenStudy | src/main/java/ru/muslim/tajwid/service/BotFlowService.java:912-925 | the study answer is recorded and the phone is requested |
| FlowEngine.OnHasChildren | src/main/java/ru/muslim/tajwid/service/BotFlowService.java:807-845 | a children button counts only at its track's children steps; otherwise nothing happens |
| FlowEngine.OnChildrenStudy | src/main/java/ru/muslim/tajwid/service/BotFlowService.java:871-891 | a study button counts only at its track's study step; otherwise nothing happens |
| FlowEngine.UpsertUser | src/main/java/ru/muslim/tajwid/service/BotFlowService.java:1274-1328 | the profile is registered with the context's answers; flow 1 has no referrer, flow 4 is PENDING on the context's referrer; points, link and creation time of an existing profile are kept |
| FlowEngine.FlushTags | src/main/java/ru/muslim/tajwid/service/BotFlowService.java:1336-1340 | every temp tag becomes a user tag; existing tags keep their times |
| FlowEngine.AnnouncementDelay | src/main/java/ru/muslim/tajwid/service/BotFlowService.java:985-988 | the configured delay, or zero when it is missing or negative |
| FlowEngine.RetryDelay | src/main/java/ru/muslim/tajwid/service/BotFlowService.java:1050-1056 | the configured tick delay when positive, else the default; always positive |
| FlowEngine.AnnounceNow | src/main/java/ru/muslim/tajwid/service/BotFlowService.java:990-998 | the course is confirmed, the announcement is marked sent and flow 2 starts with the intro as the last message |
| FlowEngine.ScheduleAnnouncement | src/main/java/ru/muslim/tajwid/service/BotFlowService.java:981-1009 | no delay and course subscribed: announce now; no delay otherwise: wait and retry after the retry delay; a positive delay: wait until now plus the delay |
| FlowEngine.HandleReadingLevel | src/main/java/ru/muslim/tajwid/service/BotFlowService.java:597-657 | outside the level step a complete-previous-steps message; an unknown level asks again; a known level completes the registration |
| FlowEngine.Register | src/main/java/ru/muslim/tajwid/service/BotFlowService.java:614-618 | the level is recorded, the profile registered, the temp tags and the level label become user tags |
| FlowEngine.Notify | src/main/java/ru/muslim/tajwid/service/BotFlowService.java:619-622 | the admin notices come first, then the registration-done message |
| FlowEngine.CompleteRegistration | src/main/java/ru/muslim/tajwid/service/BotFlowService.java:614-625 | the user ends up registered with the chosen level and tags, the admins are notified before the user, and the scheduled announcement never undoes that |
| FlowEngine.RegisteredKept | src/main/java/ru/muslim/tajwid/service/BotFlowService.java:659-698 | the course confirmation and a referral count leave a registered profile registered |
| FlowEngine.HandleNameInput | src/main/java/ru/muslim/tajwid/service/BotFlowService.java:713-733 | a valid trimmed name is stored and the age asked; an invalid one is rejected with no change |
| FlowEngine.HandleAgeInput | src/main/java/ru/muslim/tajwid/service/BotFlowService.java:735-763 | an age from 7 to 100 is stored and the children question asked; otherwise the invalid-age message |
| FlowEngine.HandleHasChildrenInput | src/main/java/ru/muslim/tajwid/service/BotFlowService.java:765-791 | a yes/no answer finalises the children question; other text asks again with buttons |
| FlowEngine.HandleLegacyChildAge | src/main/java/ru/muslim/tajwid/service/BotFlowService.java:793-805 | an old child-age step moves to the study question with the age fields cleared |
| FlowEngine.HandleChildrenStudyText | src/main/java/ru/muslim/tajwid/service/BotFlowService.java:893-910 | a yes/no answer finalises the study question; other text asks again |
| FlowEngine.HandleText | src/main/java/ru/muslim/tajwid/service/BotFlowService.java:525-567 | text never writes the store and always answers; a step that expects no text leaves the context alone |
| FlowEngine.HandleContact | src/main/java/ru/muslim/tajwid/service/BotFlowService.java:569-595 | only at a phone step and only the user's own contact is accepted, storing the phone and asking for the reading level |
| FlowEngine.HandleCallback | src/main/java/ru/muslim/tajwid/service/BotFlowService.java:252-287 | a button press touches only this user's context and never drops users, tags or earlier messages |
| FlowEngine.HandleUpdate | src/main/java/ru/muslim/tajwid/service/BotFlowService.java:93-131 | every update saves the user's context, touches no other context, and never removes users or tags |
| FlowAutomation.HandleCourseChannelSubscriptionConfirmed | src/main/java/ru/muslim/tajwid/service/BotFlowService.java:134-153 | only a subscribed, known user is confirmed; a stored context waiting for the course moves to flow 2 with the announcement last |
| FlowAutomation.ConfirmStored | src/main/java/ru/muslim/tajwid/service/BotFlowService.java:1039-1048 | the confirmation uses the stored context, and only a waiting one changes |
| FlowAutomation.DueIds | src/main/java/ru/muslim/tajwid/service/BotFlowService.java:1011-1013 | exactly the contexts with an unsent announcement due by now, in ascending id order |
| FlowAutomation.ProcessDue | src/main/java/ru/muslim/tajwid/service/BotFlowService.java:1015-1036 | a context is never due again afterwards: a non-waiting one is marked sent, a waiting one without the course is rescheduled, a waiting subscribed one is announced |
| FlowAutomation.DueSweep | src/main/java/ru/muslim/tajwid/service/BotFlowService.java:1011-1037 | after the sweep no swept context is due, no other context changed, and only intros and credit notices were sent |
| FlowAutomation.PendingIds | src/main/java/ru/muslim/tajwid/service/BotFlowService.java:1063-1065 | exactly the registered users still PENDING, in ascending id order |
| FlowAutomation.ProcessPending | src/main/java/ru/muslim/tajwid/service/BotFlowService.java:1067-1088 | an invitee with a referrer who is or becomes course-subscribed is confirmed; any other is left alone |
| FlowAutomation.PendingSweep | src/main/java/ru/muslim/tajwid/service/BotFlowService.java:1063-1089 | every confirmable pending invitee ends up with the course-confirmed tag |
| FlowAutomation.ProcessScheduledAutomations | src/main/java/ru/muslim/tajwid/service/BotFlowService.java:156-163 | a tick adds or removes no user or context, keeps every profile's answers, and sends only intros and credit notices |
| FlowProperties.EmptyUpdateNudges | src/main/java/ru/muslim/tajwid/service/BotFlowService.java:127-130 | an update with no text, callback or contact saves the context unchanged and sends the /start nudge |
| FlowProperties.StartWithArgument | src/main/java/ru/muslim/tajwid/service/BotFlowService.java:165-250 | "/start x" sends one message and writes only the context: unusable, used or welcome link, as the referrer and the user's history decide |
| FlowProperties.ReferralLinkEntry | src/main/java/ru/muslim/tajwid/service/BotFlowService.java:215-250 | following another stored user's link as a new user opens flow 3 with that referrer |
| FlowProperties.StaleSilentButton | src/main/java/ru/muslim/tajwid/service/BotFlowService.java:252-287 | an out-of-step button of the silent kind saves the context unchanged and sends nothing |
| FlowProperties.StaleTermsButton | src/main/java/ru/muslim/tajwid/service/BotFlowService.java:380-387 | an out-of-step terms button only sends the restart hint |
| FlowProperties.StaleLevelButton | src/main/java/ru/muslim/tajwid/service/BotFlowService.java:597-605 | an out-of-step level button only asks to finish the previous steps |
| FlowProperties.LevelButtonRoundTrip | src/main/java/ru/muslim/tajwid/service/BotFlowService.java:942-953 | every offered level button carries data that parses back to its own level |
| FlowProperties.LevelButtonRegisters | src/main/java/ru/muslim/tajwid/service/BotFlowService.java:597-657 | pressing a level button at the level step registers the user with that level and tag, admins first |
| FlowProperties.RegistrationOutcome | src/main/java/ru/muslim/tajwid/service/BotFlowService.java:614-625 | after saving, the user is registered with the level tag and the admin notices precede the done message |

## Left out

- The flow-context export follows the 24 columns AdminExportService writes (`CsvExport.ContextCells`). It does not follow the AdminExportFlowContextRow record, which has only 20 components: it lacks telegramUsername, hasChildren, referralAnnouncementDueAt and referralAnnouncementSent, all of which the service reads (AdminExportService.java:105,110,123-124).
- HTTP controllers, admin security and IP allow-listing, webhook registration (`setWebhook`) and the scheduler's threading are transport and configuration; they are not part of this model.
- Concurrency: the engine's per-user lock, transactions and the scheduler's single-flight flag are modelled as atomic sequential operations.
- The JPA @PreUpdate hook runs at flush time; the engine's saves replace rows without re-stamping updatedAt.
- The subscription oracle answers are fixed per event; the real checks could answer differently on two calls within one update.
- Clock, UUIDs and admin recipients are parameters of `Env`; instant formatting and UUID text in the CSV export are parameters (`Formats`).
- Bot message texts are kinds (`Messages.Text`) rather than the Russian wording; the admin notice is reduced to the registered user's id.
- Logging, including the whole body of `logDetectedChannelChatId` beyond remembering the channel id, is left out.
- `exportSnapshot` builds a JSON snapshot of the four fetched row lists; only the CSV exports are modelled.
- Decimal.ParseLong: accepts ASCII digits only, whereas Java also accepts other Unicode decimal digits.
- Ledger.ProcessReferralEvent: a new ledger row is appended without looking for a row with the same `referralEventId`, whereas JPA's `save` of an entity whose `@Id` already exists would merge onto that row; the engine draws the event id from `Env.eventIds` as a stand-in for a random UUID, so fresh ids are assumed, and `Ledger.PreservesUniqueness` keeps one row per event id only under that assumption.
- JsonNode.ParseLongNode: JSON numbers are modelled as integers only, so a fractional number such as `1.5`, on which Jackson's `longValue` also throws, cannot be written down; an out-of-range integer is modelled as the throw it causes.
- Webhook.ProcessUpdate: a throw is reported as `thrown`; the HTTP error response the controller then produces is not modelled.
- Decimal.ParseInt: accepts ASCII digits only, whereas `Integer.parseInt` also accepts other Unicode decimal digits (so "٢٥" is 25 in Java and rejected here).
- FlowInput.ParseAge: through `Decimal.ParseInt`, an age written in non-ASCII decimal digits is rejected, whereas the bot accepts it.
- PublicChildren.AgeOf: through `Decimal.ParseInt`, a child age written in non-ASCII decimal digits is dropped, whereas the services keep it.
- FlowInput.IsValidName: the `\p{L}` letter class is approximated by the Latin letters (ASCII, Latin-1, Latin Extended-A and -B) and the Cyrillic letters of U+0400-04FF.
- JavaText.Lower: lower-cases ASCII and Cyrillic only, the alphabets the yes/no words use.
- UpdateMapper.MapUpdate: the parsed update carries no username, so the request's username is always empty.
- FlowAutomation.DueIds: the database order of the due and pending queries is unspecified; the model sweeps in ascending user id.
- FlowEngine.HandleCallback: its contract states only the frame (which rows may change); the per-button behaviour is stated by the handlers it dispatches to and by the FlowProperties lemmas.
- FlowEngine.HandleUpdate: its contract states only the frame; the behaviour per kind of update is stated by the FlowProperties lemmas.
- Subscription.TelegramCheckSchool: the school check is the membership check on the configured school channel; it has no contract of its own beyond that.
- The two `parseChildrenAges` methods of the public and admin services are identical; both use `PublicChildren.ChildrenAges`.
