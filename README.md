# AuraCouple core in Dafny

This project models the core of AuraCouple, a small web application for a couple. The two partners chat, watch videos together ("nobar"), save money towards a shared goal, and keep a photo gallery. An administrator reviews the savings and manages the accounts.

The model covers:

- **App shell** (`App.tsx`): the state every page shares, and three operations on it:
  - the background load that fills it;
  - the realtime insert handler that merges pushed chat messages into it;
  - the sign-out that empties it.
- **Data-access layer** (`services/databaseService.ts`): how rows become records and back, and `createProfile`.
- **Pages**: login and registration, chat, savings, gallery, dashboard and administration.

Modules:

| module | file | what it holds |
|---|---|---|
| `Types` | types.dfy | users, messages, savings, photos, message metadata, `Option` |
| `Strings` | strings.dfy | JavaScript string operations: ASCII lower-casing, `includes`, `trim`, `replace(/\s/g, '')`, string order, integer to decimal text |
| `Seqs` | seqs.dfy | `filter`, `find`, `some`, and a stable sort by key |
| `Database` | database.dfy | row mappers, the list queries, `getProfile`, `createProfile` |
| `App` | app.dfy | `AppState`, the application state class, and the realtime delivery function `Deliver` |
| `Search` | search.dfy | the case-insensitive user match shared by three pages |
| `ChatPage` | chat_page.dfy | chat keys, conversation views, the sidebar, sending, deleting, nobar sessions |
| `SavingsPage` | savings_page.dfy | totals, the cumulative chart, submitting a saving |
| `AdminPage` | admin_page.dfy | statistics, reviewing savings, deleting and overriding accounts |
| `Dashboard` | dashboard.dfy | the partner search and the total shown on the home page |
| `GalleryPage` | gallery_page.dfy | the camera and upload form, uploading and deleting photos |
| `Email` | email.dfy | the address check of the registration form, as a finite automaton proved equal to a declarative description |
| `Login` | login.dfy | the order of the registration checks, the messages of both handlers, the handle field |

How the pages and their inputs are modelled:

- Each page is a class. Its fields are the page's React state; a reference `app` to the shared `AppState` stands for the `set…` callbacks it receives.
- An event handler is a method that runs to completion.
- Values the handler obtains from outside are parameters:
  - the clock (`now`);
  - the answer to a confirmation dialog (`confirmed`);
  - whether the promise of a database write resolved (`resolved`): `savePhoto` and `deletePhoto` only log a database error and still resolve, so `resolved` is false only for a thrown exception;
  - the rows a query returns;
  - the answer of the authentication service;
  - the assistant's reply (`assistant: string -> string`);
  - what `parseFloat` made of a text (`Option<int>`).

## Model

| member | source | states |
|---|---|---|
| Database.OrElse | services/databaseService.ts:21 | `x \|\| fallback` on a nullable string: the given value exactly when it is present and non-empty, the fallback exactly when it is null or empty |
| Database.ProfileToUser | services/databaseService.ts:14-24 | the user keeps the row's id and name; the handle is "@" plus the name; e-mail and password are empty; display name, role and creation date are copied; the photo URL is the row's when it is non-empty, and the default when the row's is null or empty, so it is never empty |
| Database.GetUsers | services/databaseService.ts:7-25 | no users when the backend is unconfigured or the query fails; otherwise one user per row, in row order, each mapped by `ProfileToUser` |
| Database.MaybeSingle | services/databaseService.ts:33 | a row exactly when exactly one row matches, and then that row |
| Database.GetProfile | services/databaseService.ts:27-47 | a profile exactly when the backend is configured, the query answers, and exactly one row has the id; that profile is the row with the id read through the profile mapper (its uid, the '@' handle, blank e-mail and password, the picsum fallback photo) |
| Database.SenderRoundTrip | services/databaseService.ts:120 | saving and reloading a sender gives it back exactly when it is not the empty string; the assistant's null stays null |
| Database.SenderFromRow | services/databaseService.ts:120 | a loaded sender is the assistant exactly when the column is null, empty or already the assistant's id; any other sender is the column's value |
| Database.SenderToRow | services/databaseService.ts:135 | the assistant's id is stored as null, and only it; every other sender is stored as itself |
| Database.RowToMessage | services/databaseService.ts:117-125 | id, chat, text, flag and metadata are copied, and the timestamp is the row's `created_at`; the sender is the assistant's exactly when the row has no non-empty sender or names the assistant, and any other sender is the row's `sender_id` |
| Database.MessageToRow | services/databaseService.ts:128-140 | the stored sender is null exactly for the assistant; a missing AI flag is stored as false; missing metadata is stored as the empty object |
| Database.MessageRoundTrip | services/databaseService.ts:117-140 | a saved message reloads as itself, apart from a missing flag or metadata becoming explicit; a nobar invitation stays one |
| Database.GetMessages | services/databaseService.ts:109-126 | no messages without a configured backend or on a failed query; otherwise one message per row, in row order |
| Database.RowToSaving | services/databaseService.ts:153-162 | id, owner, amount, payment method, proof image, status and date are copied; the owner's name is the joined profile name `\|\|` "Unknown", so never empty, and "Unknown" when the join is missing |
| Database.GetSavings | services/databaseService.ts:145-163 | no savings without a configured backend or on a failed query; otherwise one saving per row, in row order |
| Database.RowToPhoto | services/databaseService.ts:189-198 | id, image URL, title, caption, uploader, visibility and date are copied; the uploader's name is the joined profile name `\|\|` "Unknown", so never empty, and "Unknown" when the join is missing |
| Database.GetPhotos | services/databaseService.ts:181-199 | no photos without a configured backend or on a failed query; otherwise one photo per row, in row order |
| Database.RoleFor | services/databaseService.ts:64-68 | the new account is an administrator exactly when the count is zero or the count query failed |
| Database.NormalizeUsername | services/databaseService.ts:72 | the stored name has no whitespace and no upper-case letter |
| Database.NormalizeUsernameIdempotent | services/databaseService.ts:72 | normalising a stored name again leaves it unchanged |
| Database.UpsertError | services/databaseService.ts:86-93 | the e-mail-confirmation advice exactly for code 23503; otherwise "Database error: " followed by the database's message |
| Database.CreateProfile | services/databaseService.ts:49-106 | as written: null exactly without a configured backend; without a name conflict, a failed upsert ends in its `UpsertError` and a successful one creates the profile; a created profile has the requested uid, the normalised name and a consistent handle, the given display name, an empty e-mail and password, the default photo URL for the uid and now as creation date, and is an administrator exactly when the table was empty or could not be counted |
| Database.CreateProfileChecked | services/databaseService.ts:49-106 | the same guarantees, including the upsert outcome and every field of the created profile, with the conflict lookup done on the stored (normalised) name |
| Database.LookupFindsOther | services/databaseService.ts:53-61 | with unique names and a lookup that answers, `existing && existing.id !== uid` holds exactly when another account holds the looked-up name |
| Database.CreateProfileConflict | services/databaseService.ts:53-61 | as written: with unique names and a lookup that answers, the "sudah digunakan" error comes exactly when another account holds the lower-cased name |
| Database.UniqueFilterAtMostOne | services/databaseService.ts:53-57 | with unique names, the lookup matches at most one row |
| Database.CreateProfileCheckedConflict | services/databaseService.ts:53-61 | with unique names and a lookup that answers, registration is refused as "taken" exactly when another account holds the normalised name |
| Database.CreateProfileCheckedFresh | services/databaseService.ts:53-72 | a created profile's name is held by no other account in the table |
| Database.CreateProfileMissesSpacedName | services/databaseService.ts:56-72 | as written, a second account registering "a b" while "ab" exists is given the name "ab" too; the checked version refuses it |
| Database.CreateProfileAgreesOnNormalNames | services/databaseService.ts:56-72 | for a name already in stored form, the version as written and the checked version agree |
| App.CountIdAppend | App.tsx:149-152 | appending a message adds one to the count of its own id and leaves every other count alone |
| App.DeliverAtMostOnce | App.tsx:137-152 | after delivery the row's id occurs once if it was absent and the chat mentions the user; otherwise its count is unchanged |
| App.Deliver | App.tsx:137-152 | a delivered row leaves the list as it was or appends exactly one message, the row's; it appends exactly when the chat mentions the user and no message has the row's id |
| App.DeliverIdempotent | App.tsx:149-152 | delivering the same row twice has the effect of delivering it once |
| App.DeliverKeepsIdsUnique | App.tsx:149-152 | a list without duplicate ids keeps that property after delivery |
| App.EchoAfterLocalAppend | App.tsx:149-152 | the push echo of a message already appended locally changes nothing, so exactly one copy remains |
| App.AppState.constructor | App.tsx:18-24 | no user, all lists empty, loading |
| App.AppState.LoadBackgroundData | App.tsx:27-45 | each list becomes the result of its own query; a failed query gives the empty list |
| App.AppState.LogIn | App.tsx:159-162 | the user becomes current and all four lists are reloaded |
| App.AppState.Register | App.tsx:198 | the new profile is appended to the user list |
| App.AppState.SignOut | App.tsx:110-118 | no current user, the realtime subscription is inactive, all lists are empty, loading is over |
| App.AppState.OnInsert | App.tsx:130-152 | nothing happens without the subscription; otherwise the list becomes `Deliver` of the old list; unique ids are preserved |
| Search.EmptyQueryMatches | pages/AdminPage.tsx:44-48 | the empty query matches every user, in both the name search and the account search |
| Search.NameMatches | pages/Dashboard.tsx:18-21 | the name search; its meaning is stated by `Search.EmptyQueryMatches`, `Search.MatchIgnoresQueryCase` and `Search.FoundByOwnHandle` |
| Search.AccountMatches | pages/AdminPage.tsx:44-48 | the account search, the name search widened by the e-mail; stated by `Search.EmptyQueryMatches`, `Search.MatchIgnoresQueryCase` and `AdminPage.FilteredUsers` |
| Search.MatchIgnoresQueryCase | pages/ChatPage.tsx:83-86 | a query matches exactly when its lower-cased form does |
| Search.FoundByOwnHandle | pages/Dashboard.tsx:17-22 | a user is found by their own handle, typed in any letter case |
| ChatPage.ChatKeySymmetric | pages/ChatPage.tsx:53-56 | both participants build the same chat key |
| ChatPage.ChatKey | pages/ChatPage.tsx:53-56 | the key is one of the two participants' ids joined by the separator, in some order, and so is as long as both ids and the separator |
| ChatPage.SplitKey | pages/ChatPage.tsx:72 | `split('::')` always yields at least one piece |
| ChatPage.SplitKeyNoColon | pages/ChatPage.tsx:72 | a text without a colon splits into itself alone |
| ChatPage.SplitKeyJoin | pages/ChatPage.tsx:72 | splitting "a::t", where `a` has no colon, gives `a` followed by the pieces of `t` |
| ChatPage.SplitChatKey | pages/ChatPage.tsx:55-72 | splitting a key built from two colon-free ids gives them back in ascending order |
| ChatPage.SeparatorInsideWindow | pages/ChatPage.tsx:67 | a window of an id's length that starts strictly inside a key contains a colon |
| ChatPage.ChatKeyMentions | pages/ChatPage.tsx:67 | for colon-free ids of equal length, the substring test `chatId.includes(uid)` holds exactly for the key's two participants |
| ChatPage.ActiveChatIdOf | pages/ChatPage.tsx:51-56 | a chat key exactly when the route names a user that exists |
| ChatPage.ChatView | pages/ChatPage.tsx:58-60 | no messages without an active chat; otherwise exactly the messages of that chat; each is in the list |
| ChatPage.ChatViewAppend | pages/ChatPage.tsx:58-60 | a message appended to the list appears at the end of its own chat's view and in no other view |
| ChatPage.ChatViewConcat | pages/ChatPage.tsx:58-60 | the view of a concatenation is the concatenation of the views |
| ChatPage.ViewAfterAppend | pages/ChatPage.tsx:58-60 | appending messages of one chat extends that chat's view by exactly them, in order, and leaves every other view unchanged |
| ChatPage.WithoutMessageExact | pages/ChatPage.tsx:138-142 | deleting removes every copy of the id and keeps the messages of every other id, in order |
| ChatPage.WithoutMessageView | pages/ChatPage.tsx:138-142 | a chat's view after a deletion is its old view without that id |
| ChatPage.WithoutMessage | pages/ChatPage.tsx:140 | the list after a deletion holds exactly the old messages whose id differs from the deleted one |
| ChatPage.WithoutChat | pages/ChatPage.tsx:148 | the list after clearing a chat holds exactly the old messages of other chats |
| ChatPage.WithoutChatView | pages/ChatPage.tsx:144-153 | deleting a conversation empties its view and leaves every other view unchanged |
| ChatPage.AuraCommandCaseInsensitive | pages/ChatPage.tsx:123 | `@aura` is recognised in any letter case, and only in texts of at least five characters |
| ChatPage.IsAuraCommand | pages/ChatPage.tsx:123 | a text is an assistant command exactly when it has at least five characters and its lower-cased first five are `@aura` |
| ChatPage.UserMessage | pages/ChatPage.tsx:112-118 | the user's message has the clock as id and timestamp, the active chat, the user as sender and the typed text, and is neither an assistant reply nor an invitation |
| ChatPage.AssistantMessage | pages/ChatPage.tsx:126-133 | the reply has the clock plus one as id, the active chat, the assistant as sender, the reply text, and is marked as the assistant's and not an invitation |
| ChatPage.AuraPrompt | pages/ChatPage.tsx:125 | the prompt has no surrounding whitespace, and is empty for texts of at most five characters |
| ChatPage.Sent | pages/ChatPage.tsx:108-136 | nothing changes for a blank text or without an active chat. Otherwise the user's message is appended with text, sender, chat and time. For `@aura` the assistant's answer to the prompt comes after it, with id `replyNow + 1` |
| ChatPage.Outgoing | pages/ChatPage.tsx:108-136 | every message a send appends belongs to the active chat |
| ChatPage.SentView | pages/ChatPage.tsx:108-136 | the active view grows by exactly the new messages; every other view stays the same |
| ChatPage.ChatIdsOf | pages/ChatPage.tsx:65-68 | the distinct chat ids that mention the user, each used by some message, all of them present |
| ChatPage.ToConversationOf | pages/ChatPage.tsx:71-80 | a chat id taken from a message, with a partner that resolves, becomes a conversation with that partner, the chat's latest message and that id |
| ChatPage.CollectChatIds | pages/ChatPage.tsx:65-68 | the `forEach` loop collects exactly `ChatIdsOf` |
| ChatPage.ResolvePartner | pages/ChatPage.tsx:72-74 | a resolved partner is a listed user, other than the user, whose id is a piece of the key |
| ChatPage.SelfChatHasNoPartner | pages/ChatPage.tsx:73-80 | a chat with oneself resolves no partner and is not listed |
| ChatPage.ResolvePartnerOfChatKey | pages/ChatPage.tsx:72-74 | a chat built for two different users resolves to the first listed user with the other id |
| ChatPage.Latest | pages/ChatPage.tsx:75-77 | the element taken is in the list and no message is newer |
| ChatPage.LatestIsFirstNewest | pages/ChatPage.tsx:75-77 | among the newest messages, it is the first in list order (the sort is stable) |
| ChatPage.ChatLatest | pages/ChatPage.tsx:75-77 | the last message of a chat belongs to that chat, and no message of the chat is newer |
| ChatPage.PartnerIn | pages/ChatPage.tsx:89 | the partner of any listed conversation is among `existingPartnerUids` |
| ChatPage.SidebarOf | pages/ChatPage.tsx:88-97 | the "new chat" group is empty for an empty query; each user in it is listed, is not the user, and matches the query |
| ChatPage.SidebarExistingExact | pages/ChatPage.tsx:70-86 | the listed conversations are, up to order, exactly the user's conversations whose partner matches the query, with the same multiplicities |
| ChatPage.SidebarExistingOnce | pages/ChatPage.tsx:64-86 | no chat is listed twice in the existing group, because the collected chat ids form a set |
| ChatPage.SidebarListsChat | pages/ChatPage.tsx:65-86 | every chat mentioning the user whose partner resolves and matches the query is listed, with that partner and the chat's newest message |
| ChatPage.SidebarGlobalExact | pages/ChatPage.tsx:89-97 | a user is offered as a new chat exactly when the query is non-empty and the user is not me, has no conversation with me, and matches |
| ChatPage.ListedConversation | pages/ChatPage.tsx:71-80 | every conversation belongs to one of the user's chats, carries that chat's resolved partner, and carries its newest message |
| ChatPage.ToConversation | pages/ChatPage.tsx:71-80 | one chat mapped to its partner and newest message; stated by `ChatPage.ToConversationOf` |
| ChatPage.Conversations | pages/ChatPage.tsx:71-80 | at most one conversation per collected chat; each is for a collected chat with messages, carries that chat's resolved partner and that chat's newest message |
| ChatPage.ToConversationChat | pages/ChatPage.tsx:71-80 | a conversation built for a chat carries that chat's id |
| ChatPage.ConversationsNoDuplicates | pages/ChatPage.tsx:71-80 | distinct chat ids give distinct conversations |
| ChatPage.ConversationsSameChat | pages/ChatPage.tsx:71-80 | two listed conversations for the same chat are the same conversation |
| ChatPage.SidebarEntry | pages/ChatPage.tsx:71-86 | every listed conversation belongs to the user, has a partner, matches the query, and carries its chat's newest message |
| ChatPage.SidebarNewestFirst | pages/ChatPage.tsx:86 | the listed conversations run from newest to oldest |
| ChatPage.SidebarGlobalExcludesPartners | pages/ChatPage.tsx:89-96 | the "new chat" group never offers someone the user already has a conversation with |
| ChatPage.ChatIsListed | pages/ChatPage.tsx:65-80 | every chat of the user's with a resolvable partner makes that partner one of the conversations |
| ChatPage.JoinSession | pages/ChatPage.tsx:352 | joining opens the invitation's video; the start time is the invitation's, or now when it is missing or zero |
| ChatPage.JoinInvitation | pages/ChatPage.tsx:155-168 | an invitation is joinable, and joining it opens the very session its sender started |
| ChatPage.ElapsedSecondsMonotone | pages/ChatPage.tsx:176 | the offset is the floor of milliseconds over 1000, and never decreases as the clock advances |
| ChatPage.ElapsedSecondsNotClamped | pages/ChatPage.tsx:176 | a session starting one millisecond in the future gives offset -1 |
| ChatPage.ElapsedSeconds | pages/ChatPage.tsx:176 | the offset is the floor of the elapsed milliseconds over 1000: 1000 times it is at most the elapsed time, and 1000 times its successor exceeds it |
| ChatPage.NobarInvitation | pages/ChatPage.tsx:159-164 | the invitation is in the active chat, from the user, dated now, and carries the video's URL and type, the active status and now as start time |
| ChatPage.EmbedUrl | pages/ChatPage.tsx:170-181 | the address itself unless an 11-character id was extracted; then the embed URL with that id and the elapsed offset |
| ChatPage.EmbedUrlDistinguishesOffsets | pages/ChatPage.tsx:170-181 | two embeds of one video at different offsets are different URLs |
| ChatPage.ChatPageState.constructor | pages/ChatPage.tsx:39-45 | an empty input and search, not typing, no modal, no session |
| ChatPage.ChatPageState.SendMessage | pages/ChatPage.tsx:108-136 | the messages become `Sent` of the old list; the input is cleared and typing is over exactly when something was sent |
| ChatPage.ChatPageState.DeleteMessage | pages/ChatPage.tsx:138-142 | when confirmed, the messages lose that id; otherwise they are unchanged |
| ChatPage.ChatPageState.DeleteConversation | pages/ChatPage.tsx:144-153 | when confirmed, the chat's messages go; the route is left exactly when that chat was open |
| ChatPage.ChatPageState.StartNobar | pages/ChatPage.tsx:155-168 | without an active chat nothing changes; otherwise an invitation is appended, the session starts now and the modal closes |
| ChatPage.ChatPageState.JoinNobar | pages/ChatPage.tsx:352 | the open session is `JoinSession` of the invitation |
| ChatPage.ChatPageState.CloseNobar | pages/ChatPage.tsx:331 | no session is open |
| SavingsPage.SumInsert | pages/SavingsPage.tsx:47-49 | inserting into a sorted list adds exactly the inserted amount to the sum |
| SavingsPage.SumSortByKey | pages/SavingsPage.tsx:47-49 | sorting preserves the sum of the amounts |
| SavingsPage.TotalsPartition | pages/SavingsPage.tsx:37-43 | balance plus pending plus rejected is the sum of every saving |
| SavingsPage.TotalBalance | pages/SavingsPage.tsx:37-39 | the balance is the sum of every saving minus the pending and the rejected amounts |
| SavingsPage.PendingAmount | pages/SavingsPage.tsx:41-43 | the pending amount is the sum of every saving minus the accepted and the rejected amounts |
| SavingsPage.NewSaving | pages/SavingsPage.tsx:66-75 | the new saving is pending, belongs to the user under their display name, carries the amount, method and proof image, and is dated now |
| SavingsPage.TotalConcat | pages/SavingsPage.tsx:37-43 | each status total of a concatenation is the sum of the parts' totals |
| SavingsPage.TotalSingleton | pages/SavingsPage.tsx:37-43 | one saving counts in the total of its own status and adds nothing to the others |
| SavingsPage.AcceptedByDate | pages/SavingsPage.tsx:47-49 | a permutation of the accepted savings, sorted by date |
| SavingsPage.AcceptedByDateMember | pages/SavingsPage.tsx:47-49 | every sorted entry is an accepted saving of the list |
| SavingsPage.RunningTotals | pages/SavingsPage.tsx:51-58 | one point per saving |
| SavingsPage.RunningTotalAt | pages/SavingsPage.tsx:51-58 | point `i` carries the date of saving `i` and the base plus the sum of the first `i + 1` amounts |
| SavingsPage.AccumulateChart | pages/SavingsPage.tsx:51-58 | the `cumulative` loop produces exactly the running totals of the list it is given, one point per saving |
| SavingsPage.GetChartData | pages/SavingsPage.tsx:46-59 | the accepted savings sorted by date, then accumulated: exactly the running totals of that sorted list |
| SavingsPage.ChartLength | pages/SavingsPage.tsx:46-59 | the chart has one point per accepted saving |
| SavingsPage.ChartOldestFirst | pages/SavingsPage.tsx:46-59 | the chart runs oldest first |
| SavingsPage.ChartEndsAtBalance | pages/SavingsPage.tsx:37-59 | the last point of a non-empty chart is the total balance |
| SavingsPage.ChartDateOrder | pages/SavingsPage.tsx:52-57 | the points of a date-sorted list keep its order |
| SavingsPage.ChartRises | pages/SavingsPage.tsx:51-58 | with positive amounts, the chart rises strictly |
| SavingsPage.ChartRisesOver | pages/SavingsPage.tsx:51-58 | over any list of positive amounts, a later point of the running totals is strictly above an earlier one |
| SavingsPage.PositiveSum | pages/SavingsPage.tsx:51-58 | a non-empty list of positive amounts has a positive sum |
| SavingsPage.Submitted | pages/SavingsPage.tsx:61-80 | a missing or non-positive amount changes nothing; otherwise one pending saving by the user, with that amount, method and date, goes in front |
| SavingsPage.SubmittedTotals | pages/SavingsPage.tsx:61-80 | a submission raises the pending amount by its amount and leaves the balance unchanged |
| SavingsPage.SavingsPageState.constructor | pages/SavingsPage.tsx:33-35 | the form is hidden, the amount field is empty, QRIS is selected |
| SavingsPage.SavingsPageState.SubmitSaving | pages/SavingsPage.tsx:61-80 | the savings become `Submitted` of the old list; the form closes and the field clears exactly when the amount was accepted |
| AdminPage.FilteredUsers | pages/AdminPage.tsx:44-48 | exactly the listed users whose name, handle or e-mail contains the query, ignoring case |
| AdminPage.FilteredUsersEmptyQuery | pages/AdminPage.tsx:44-48 | the empty search lists every user, in order |
| AdminPage.StatsOf | pages/AdminPage.tsx:30-41 | the counts are the list lengths; capital, pending amount and rejected amounts make up the sum of all savings; the pending count is at most the number of savings, and no pending saving means no pending amount |
| AdminPage.SetStatus | pages/AdminPage.tsx:51-53 | same length; only statuses change, and exactly the savings with that id get the new status |
| AdminPage.SetStatusSplit | pages/AdminPage.tsx:51-53 | with unique ids, only the chosen entry changes |
| AdminPage.TotalsAround | pages/AdminPage.tsx:30-41 | status totals and counts add up over the parts around one entry |
| AdminPage.SetStatusMovesAmount | pages/AdminPage.tsx:30-53 | a status change moves the saving's amount and count from the old status's totals to the new one's |
| AdminPage.ReviewUpdatesStats | pages/AdminPage.tsx:245-248 | accepting a pending saving moves its amount from pending to capital; rejecting it drops the amount from pending. The pending count falls by one; the other figures are unchanged |
| AdminPage.WithoutSaving | pages/AdminPage.tsx:251 | exactly the savings with a different id remain |
| AdminPage.WithoutPhoto | pages/AdminPage.tsx:275 | exactly the photos with a different id remain |
| AdminPage.WithoutUser | pages/AdminPage.tsx:58 | exactly the users with a different uid remain |
| AdminPage.DeleteReviewedKeepsPending | pages/AdminPage.tsx:245-251 | deleting a reviewed saving (the only kind with a delete button) leaves the pending amount and count unchanged |
| AdminPage.WithoutAbsentUser | pages/AdminPage.tsx:58 | deleting an unknown uid changes nothing |
| AdminPage.ReplaceUser | pages/AdminPage.tsx:65 | same length and uids; every entry with the edited uid becomes the edited user and every other entry stays |
| AdminPage.ReplaceUserIdempotent | pages/AdminPage.tsx:65 | saving the same override twice equals saving it once |
| AdminPage.ReplaceUserListed | pages/AdminPage.tsx:65 | the edited user is listed afterwards exactly when its uid was listed before |
| AdminPage.WithHandle | pages/AdminPage.tsx:316 | editing the name keeps the handle as "@" plus the name and changes nothing else |
| AdminPage.AdminPageState.constructor | pages/AdminPage.tsx:26-27 | no user is being edited and the search is empty |
| AdminPage.AdminPageState.UpdateSavingStatus | pages/AdminPage.tsx:51-53 | the savings become `SetStatus` of the old list |
| AdminPage.AdminPageState.DeleteUser | pages/AdminPage.tsx:55-60 | deleting oneself raises the alert and changes nothing; otherwise the user goes exactly when confirmed |
| AdminPage.AdminPageState.OpenEditor | pages/AdminPage.tsx:182 | the chosen user is open in the form |
| AdminPage.AdminPageState.DiscardEdit | pages/AdminPage.tsx:367-369 | the form is closed |
| AdminPage.AdminPageState.EditHandle | pages/AdminPage.tsx:316 | the open user gets the new name and the matching handle |
| AdminPage.AdminPageState.SetRole | pages/AdminPage.tsx:351-358 | the open user gets the chosen role |
| AdminPage.AdminPageState.UpdateUser | pages/AdminPage.tsx:62-67 | without an open user nothing changes; otherwise the override is applied and the form closes |
| AdminPage.AdminPageState.DeleteSaving | pages/AdminPage.tsx:251 | the savings lose that id |
| AdminPage.AdminPageState.DeletePhoto | pages/AdminPage.tsx:275 | the photos lose that id |
| Dashboard.SearchUsers | pages/Dashboard.tsx:17-22 | exactly the other listed users whose handle or name contains the term, ignoring case; never the user |
| Dashboard.SearchEmptyTerm | pages/Dashboard.tsx:17-22 | the empty term lists every other user |
| Dashboard.SearchIgnoresCase | pages/Dashboard.tsx:17-22 | the results do not depend on the term's letter case |
| Dashboard.Dropdown | pages/Dashboard.tsx:44-46 | the result box shows exactly when the term is non-empty, and lists only other users |
| Dashboard.TotalSavingsAgrees | pages/Dashboard.tsx:24-26 | the dashboard total equals the savings page balance and the admin capital, and is the sum minus pending and rejected |
| Dashboard.TotalSavings | pages/Dashboard.tsx:24-26 | the dashboard total is the savings page balance |
| GalleryPage.NewPhoto | pages/GalleryPage.tsx:108-117 | the photo has the user's id and name, the preview, the caption, the given title or "Untitled Memory", is public, and is dated now |
| GalleryPage.UploaderMayDelete | pages/GalleryPage.tsx:138-141 | whoever uploads a photo may delete it |
| GalleryPage.MayDeleteIff | pages/GalleryPage.tsx:139-141 | deletion is refused exactly to a non-administrator who did not upload the photo |
| GalleryPage.MayDelete | pages/GalleryPage.tsx:139 | the delete permission; stated by `GalleryPage.MayDeleteIff` and `GalleryPage.UploaderMayDelete` |
| GalleryPage.GalleryPageState.constructor | pages/GalleryPage.tsx:14-21 | no modal, no selection, an empty form, the camera off, no error, not uploading |
| GalleryPage.GalleryPageState.StopCamera | pages/GalleryPage.tsx:28-37 | the camera is neither active nor starting |
| GalleryPage.GalleryPageState.StartCamera | pages/GalleryPage.tsx:39-44 | the preview and error are cleared; the camera is active and starting |
| GalleryPage.GalleryPageState.CameraReady | pages/GalleryPage.tsx:47-75 | the camera has stopped starting |
| GalleryPage.GalleryPageState.CameraDenied | pages/GalleryPage.tsx:62-67 | the permission error is shown and the camera is off |
| GalleryPage.GalleryPageState.CapturePhoto | pages/GalleryPage.tsx:77-90 | when the frame is ready, it becomes the preview and the camera stops; otherwise nothing changes |
| GalleryPage.GalleryPageState.FileLoaded | pages/GalleryPage.tsx:92-99 | the file's data becomes the preview |
| GalleryPage.GalleryPageState.CloseUploadModal | pages/GalleryPage.tsx:130-136 | the camera stops and the form is emptied and closed |
| GalleryPage.GalleryPageState.HandleUpload | pages/GalleryPage.tsx:103-128 | without a preview nothing happens. When `savePhoto` resolves the photo goes in front, the form closes and the camera is stopped (neither active nor starting). When it throws, the alert is raised and the list, the form and the camera state stay as they were |
| GalleryPage.GalleryPageState.HandleDelete | pages/GalleryPage.tsx:138-153 | a stranger's photo raises the alert. An unconfirmed deletion changes nothing. When `deletePhoto` resolves the photo is removed and the viewer closes; when it throws, the failure alert is raised and nothing else changes |
| Email.SplitDotsHasNoDots | pages/Login.tsx:27 | the labels between dots contain no dot |
| Email.RunLower | pages/Login.tsx:27 | lower-casing the address does not change what the automaton accepts |
| Email.RunLocal | pages/Login.tsx:27 | a text without '@' leaves the automaton in the local part exactly when it consists of local-part characters |
| Email.RunDomain | pages/Login.tsx:27 | after the '@' the automaton tracks the domain's labels |
| Email.DomAccept | pages/Login.tsx:27 | the domain is accepted exactly when it has two or more labels of word characters or '-', the last of 2 to 4 characters |
| Email.RecogniserCorrect | pages/Login.tsx:27 | the automaton accepts exactly the addresses of the declarative shape: local part, '@', dotted domain |
| Email.ValidateEmail | pages/Login.tsx:26-28 | `validateEmail` holds exactly for the addresses of that shape |
| Email.EmailShapeOneAt | pages/Login.tsx:27 | a valid address holds exactly one '@' |
| Email.ValidateEmailExamples | pages/Login.tsx:27 | "a@b.cd" is accepted; "a@b.c" (last label too short) and "a@bc" (one label) are refused |
| Login.RegisterCheck | pages/Login.tsx:66-74 | each message is given exactly when its check is the first to fail: empty field, then invalid e-mail, then short password; no message when all pass |
| Login.UsernameInput | pages/Login.tsx:297 | the handle field holds no whitespace and no upper case, and equals the stored form |
| Login.UsernameInputIsStored | pages/Login.tsx:297 | what the field holds is already the stored form of the name |
| Login.RegisterFormAgrees | pages/Login.tsx:90 | through the form, the name `createProfile` checks is the name it stores |
| Login.OrFallback | pages/Login.tsx:105-112 | a non-empty message is kept; otherwise the fallback is used |
| Login.FriendlyRegisterError | pages/Login.tsx:107-112 | never empty; a foreign-key violation becomes the advice, and any other message is kept or replaced by the fallback |
| Login.ValidationMessagesShown | pages/Login.tsx:105-112 | the validation messages reach the page unchanged |
| Login.LoginOutcome | pages/Login.tsx:30-58 | sign-in succeeds exactly with an authenticated account that has a profile, and yields that profile. Each failure has its own non-empty message |
| Login.RegisterOutcome | pages/Login.tsx:61-116 | a failed check yields its message. Success comes exactly when the checks pass, sign-up gives an account, and the profile is created; for the stored-form handle the form holds, the checked profile step equals `createProfile` as written. The new user has that uid and the stored name. Each failure has its own non-empty message |
| Login.LoginPageState.constructor | pages/Login.tsx:20-24 | not loading, no error, an empty registration form |
| Login.LoginPageState.SetUsername | pages/Login.tsx:297 | only the handle field changes, to the normalised input |
| Login.LoginPageState.LoginSubmit | pages/Login.tsx:30-58 | loading is over; the profile is returned and the error is cleared on success, and on failure the message is shown |
| Login.LoginPageState.RegisterSubmit | pages/Login.tsx:61-116 | loading is over; on success the profile is returned with the redirect message, and on failure the message is shown |

### Where the model follows the code over the system's description

- ChatPage.ElapsedSecondsNotClamped: the playback offset is not clamped at zero. A session whose start lies in the future gives a negative `start` parameter.
- ChatPage.Sent: the `@aura` test is made on the text as typed, not on its trimmed form.
- App.OnInsert: a pushed message is appended at the end. It is not placed by its timestamp.
- Database.RoleFor: a failed count query makes the new account an administrator.
- ChatPage.ChatIdsOf: the sidebar collects chats with a substring test on the chat id (`includes`). ChatPage.ChatKeyMentions states under which conditions on the ids this equals membership.

## Findings

| source | as written | input that shows it | evidently intended | confidence | as-written member | corrected member |
|---|---|---|---|---|---|---|
| services/databaseService.ts:56-72 | the "already taken" lookup searches for the lower-cased name, but the stored name also has its whitespace removed | account "u1" holds "ab" and account "u2" registers as "a b": the lookup for "a b" finds nothing, and "u2" is stored as "ab" too | the lookup uses the name that will be stored, so two accounts never share a name | medium, not executed; the registration form already strips whitespace (Login.RegisterFormAgrees), and `createProfile` has no other caller, so the defect is latent | Database.CreateProfileMissesSpacedName, Database.CreateProfileConflict (on Database.CreateProfile) | Database.CreateProfileChecked (Database.CreateProfileCheckedConflict, Database.CreateProfileCheckedFresh); Login.RegisterOutcome uses it |

## Left out

- The Supabase client, authentication, sessions, and the realtime channel's subscribe and unsubscribe are left out: these are network calls. Their answers are parameters (`Query`, `AuthResponse`, `Backend`).
- The initial session check of `App.tsx` (`initApp`, the five-second safety timer, the SIGNED_IN listener) is left out: it is timing and network; its effect is `LogIn` or `SignOut`.
- The assistant behind `getAiResponse` (`services/geminiService.ts`, `api/gemini.ts`) is left out: it is a remote model. It is the parameter `assistant`, a function of the prompt.
- `saveMessage`, `saveSaving`, `savePhoto` and `deletePhoto` are left out as writes: they only talk to the network. `MessageToRow` is the saved row, and whether their promise resolved is the parameter `resolved`. A database error reported to `savePhoto` or `deletePhoto` is only logged, so the gallery then shows the photo added or removed although the table did not change; the model has no separate parameter for that error.
- Rendering, routing, scrolling, focus and CSS classes are left out: these are presentation. Navigation to `/chat` is `partnerId := None`.
- The camera stream, the canvas and `FileReader` are left out: they are browser devices. Whether a frame or a file is ready, and its data URL, are parameters.
- Date formatting (`toLocaleDateString`) and the chart's date label are left out: they depend on the locale. A chart point carries the raw timestamp.
- Floating-point amounts and the goal percentage are left out: money is an integer, and `parseFloat` is an `Option<int>` parameter.
- The YouTube address pattern in `getYoutubeEmbedUrl` is left out: the regular expression's capture is the parameter `extracted`.
- Interleaving between `await`s is left out: each handler runs atomically with one `now`. `replyNow` is the clock when the assistant answers. The 500 ms and 1000 ms delays of registration are not modelled.
- Login.RegisterCheck: `password.length` counts UTF-16 code units. The model counts characters.
- Strings are not compared in UTF-16 order: `Strings.LexLess` compares characters.
- Lower-casing is ASCII-only. Email.ValidateEmail therefore does not model non-ASCII letters that lower-case into the word class (the Kelvin sign lower-cases to 'k').
- ChatPage.ChatPageState.JoinNobar: requires `Joinable(m)`. The page shows "Join Nobar" on every invitation, but its handler asserts `videoUrl!` and `videoType!`; the model covers only invitations that carry both.
- ChatPage.JoinSession: requires `Joinable(m)`, for the same non-null assertions on `videoUrl` and `videoType`.
- Login.RegisterOutcome: requires the handle in stored form, which the form's change handler guarantees (Login.UsernameInputIsStored). `createProfile` as written and the checked version then agree, as its ensures states.
- Login.LoginPageState.RegisterSubmit: requires `Valid()`, the stored-form handle that the constructor and SetUsername keep.
- AdminPage.AdminPageState.EditHandle: requires an open user, as the page renders the form only then.
- AdminPage.AdminPageState.SetRole: requires an open user, as the page renders the role buttons only then.
- AdminPage.AdminPageState.UpdateSavingStatus: requires a reviewed status, as the buttons only pass 'accepted' or 'rejected'.
- The display-name, e-mail and password fields of the admin and login forms are not modelled: each is a plain copy of the input.
- The `required` attribute of the gallery title input is not modelled: a browser check, so an empty title gets "Untitled Memory".
- The login page's welcome step and its register and password-visibility toggles are not modelled: UI state only.
- `onLogin` and `onRegister` are not invoked by Login.LoginPageState.LoginSubmit and RegisterSubmit: the profile they would receive is returned to the caller.
- `ToConversation` tests whether the chat has a message before taking its newest one. Every collected chat id has one, so the test always passes; the source indexes `[0]` without such a test.
- `components/Layout.tsx` is not part of this model: it is navigation chrome.
