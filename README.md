# Campus community app: a Dafny model of its client-side core

The application is a student community site backed entirely by mock data in
the browser. Its core is three state holders:

- the login session (`AuthContext`), with the signed-in user and their profile;
- the token ledger (`TokenContext`), with the balance kept on the user record, a
  log of earn and spend entries, the daily login bonus and the fixed reward
  table;
- the notification centre (`NotificationContext`), with a newest-first list,
  read flags, the unread count and a builder for each kind of notice.

On top of these state holders sit the pages, each a small piece of logic:

- the AI chat route, and the helper that formats chat history for it;
- the four submission forms (paper, review, listing, event): each keeps tag or
  list inputs, caps its uploads, then credits tokens and posts a notice;
- the filters, labels and caps of the list pages: sports, food, marketplace,
  messages, ranking, home, the header, the navigation bars, the post card and
  the settings page.

The model follows the source's own form:

- A context whose state the source updates in place becomes a class:
  - `Auth.AuthSession`;
  - `Tokens.TokenLedger`, whose log is an `array` that
    `getTransactionHistory` sorts in place;
  - `Notifications.NotificationCenter`.
- Each form page becomes a class with its state fields. Each form handler's
  `ensures` gives the changed fields in terms of pure functions and states
  that every other field keeps its value. The ledger and the notification
  centre state the whole of their new state too.
- Filters, labels and builders are functions, with lemmas about them.

Some inputs are parameters of the model:

- The stored copies the contexts read from browser storage are a
  `Stored<T>` value: `Present(v)`, `Missing`, or `Corrupt` for text that does not parse.
- The clock is a `now: nat` (milliseconds).
- The AI service is a function parameter of the chat route.

Integers are unbounded.

The token ledger keeps one invariant, `Consistent()`: with a user signed in,
the balance on the user record equals a ghost base plus the signed sum of the
log. Every ledger operation preserves it, and sorting the log (a permutation)
leaves that sum unchanged.

## Model

| member | source | states |
|---|---|---|
| Records.DefaultUser | src/lib/mock-data.ts:536 | the current user is the first fixture user, id "1" with 150 tokens |
| Auth.TokensPatch | src/context/TokenContext.tsx:72 | the profile patch that addTokens sends carries only the new token count |
| Auth.MergeTokensOnly | src/context/AuthContext.tsx:78-84 | merging a tokens-only patch changes the tokens field and nothing else |
| Auth.MergeFields | src/context/AuthContext.tsx:78-84 | for each of the nine fields (id, name, email, studentId, major, year, avatar, tokens, createdAt) the result takes the patch's value when present and keeps the user's otherwise; the empty patch changes nothing |
| Auth.MergeIdempotent | src/context/AuthContext.tsx:78-84 | applying the same patch twice equals applying it once |
| Auth.AuthSession.constructor | src/context/AuthContext.tsx:26-51 | loads the stored user when present, otherwise signs in the fixture user |
| Auth.AuthSession.Login | src/context/AuthContext.tsx:53-71 | any credentials succeed; the fixture user takes the given email and becomes the signed-in user |
| Auth.AuthSession.Logout | src/context/AuthContext.tsx:73-76 | no user afterwards, and not authenticated |
| Auth.AuthSession.UpdateProfile | src/context/AuthContext.tsx:78-84 | without a user nothing happens; otherwise the user becomes the patch merged onto the old user |
| Auth.AuthSession.IsAuthenticated | src/context/AuthContext.tsx:92 | authenticated iff a user is signed in |
| Auth.Merge | src/context/AuthContext.tsx:78-84 | the spread of a patch over the user, field by field; its properties are the MergeFields and MergeTokensOnly rows |
| Tokens.NetAppend | src/context/TokenContext.tsx:54-97 | the signed sum of a log is additive over concatenation |
| Tokens.NetRemove | src/context/TokenContext.tsx:99-101 | the signed sum of a log is one entry's signed amount plus the sum of the rest |
| Tokens.MultisetRemove | src/context/TokenContext.tsx:99-101 | deleting position j removes exactly one copy of that entry from the multiset |
| Tokens.NetPermutation | src/context/TokenContext.tsx:99-101 | two logs with the same multiset of entries have the same signed sum, so sorting keeps the balance consistent |
| Tokens.Prepend | src/context/TokenContext.tsx:67 | the new log is the new entry followed by the old log |
| Tokens.Swapped | src/context/TokenContext.tsx:100 | swapping two neighbours keeps the length and the multiset |
| Tokens.SiftStart | src/context/TokenContext.tsx:100 | an ordered prefix of length i starts the insertion of element i |
| Tokens.SiftStep | src/context/TokenContext.tsx:100 | swapping a newer entry past an older one keeps the insertion invariant |
| Tokens.SiftDone | src/context/TokenContext.tsx:100 | when the entry reaches its place, the prefix of length i+1 is ordered newest first |
| Tokens.InsertNewest | src/context/TokenContext.tsx:100 | inserts entry i into the sorted prefix in place: the prefix of length i+1 is ordered and the array is a permutation of the old one |
| Tokens.SortNewestFirst | src/context/TokenContext.tsx:100 | sorts the array in place by createdAt, newest first, as a permutation of the old contents |
| Tokens.RewardAward | src/context/TokenContext.tsx:144-163 | each of the six reward helpers pays its own table amount and reason: post 投稿作成, comment コメント投稿, review レビュー投稿, event イベント参加, answer 質問回答, best answer ベストアンサー選出; every amount is positive and the best answer pays 10 times the post reward |
| Tokens.RewardReasonsDistinct | src/context/TokenContext.tsx:144-163 | different reward kinds are logged under different reasons |
| Tokens.BestAnswerIsLargest | src/lib/constants.ts:98-106 | no reward pays more than the best answer |
| Tokens.TokenLedger.Balance | src/context/TokenContext.tsx:121 | the balance is the signed-in user's token count, 0 without a user |
| Tokens.TokenLedger.constructor | src/context/TokenContext.tsx:26-43 | with a user the log is the stored log when present, else empty; with no user it is empty; the ledger starts consistent |
| Tokens.TokenLedger.AddTokens | src/context/TokenContext.tsx:54-73 | ignored with no user or a non-positive amount; otherwise an earn entry is prepended, the user's tokens rise by the amount, and consistency is kept |
| Tokens.TokenLedger.SpendTokens | src/context/TokenContext.tsx:75-97 | succeeds iff there is a user, the amount is positive and at most the balance; on success a spend entry is prepended and the balance drops but stays non-negative; on refusal nothing changes |
| Tokens.TokenLedger.GetTransactionHistory | src/context/TokenContext.tsx:99-101 | returns the log array itself, sorted newest first, as a permutation of the old log; consistency is kept |
| Tokens.TokenLedger.DailyBonus | src/context/TokenContext.tsx:104-118 | pays once per user per day: when today is already recorded nothing is paid; otherwise the entry (id from now, the user, the daily amount, earn, デイリーログインボーナス, no relatedId) is put in front of the log and the user's tokens rise by the daily amount; today is recorded for the user either way |
| Tokens.TokenLedger.Reward | src/context/TokenContext.tsx:144-163 | with a user, the helper's entry (its amount and reason, the relatedId, earn) is put in front of the log and the user's tokens rise by that amount; the fixture is unchanged |
| Tokens.Signed | src/context/TokenContext.tsx:54-97 | an earn entry adds its amount to the balance and a spend entry subtracts it |
| Tokens.Net | src/context/TokenContext.tsx:54-97 | the signed sum of a log, which Consistent ties to the balance |
| Tokens.NewestFirst | src/context/TokenContext.tsx:100 | a log is newest first iff every entry is no older than any after it |
| Notifications.CountUnread | src/context/NotificationContext.tsx:114 | the unread count is at most the list length |
| Notifications.CountUnreadZero | src/context/NotificationContext.tsx:114 | the count is 0 iff every notification is read |
| Notifications.InitialNotifications | src/context/NotificationContext.tsx:28-52 | no user gives none; stored notifications are loaded; otherwise the user's fixture notifications |
| Notifications.InitialKeepsFixtureOrder | src/context/NotificationContext.tsx:28-52 | without a saved list, the user's fixture rows come in the fixture's order |
| Notifications.DemoUserFixtures | src/lib/mock-data.ts:229-259 | the demo user starts with the fixture notifications, two of them unread |
| Notifications.MarkRead | src/context/NotificationContext.tsx:87-93 | only the read flag changes, and it is set exactly on entries with the id |
| Notifications.MarkReadOthersUnchanged | src/context/NotificationContext.tsx:87-93 | an entry with another id is untouched |
| Notifications.MarkReadIdempotent | src/context/NotificationContext.tsx:87-93 | marking the same id twice equals marking it once |
| Notifications.MarkReadCount | src/context/NotificationContext.tsx:87-93 | the unread count drops by exactly the number of unread entries with that id |
| Notifications.MarkAll | src/context/NotificationContext.tsx:95-99 | every entry is kept, each with its read flag set |
| Notifications.MarkAllClearsUnread | src/context/NotificationContext.tsx:95-99 | after marking all, nothing is unread |
| Notifications.WithoutId | src/context/NotificationContext.tsx:108-112 | keeps exactly the entries whose id differs |
| Notifications.WithoutIdKeepsOrder | src/context/NotificationContext.tsx:108-112 | the kept entries keep their order; removing an absent id changes nothing |
| Notifications.WithoutIdCount | src/context/NotificationContext.tsx:108-112 | the list shrinks by exactly the number of entries carrying the id, repeated copies included |
| Notifications.Stamp | src/context/NotificationContext.tsx:66-72 | the new notification is unread, for the current user, at the given time, with the draft's kind, title, message and link |
| Notifications.AddRaisesUnread | src/context/NotificationContext.tsx:74 | prepending a new notification raises the unread count by one |
| Notifications.Build | src/context/NotificationContext.tsx:151-193 | each of the six notice kinds gets its own type, title and link: participation success イベント参加 /sports/, reminder info イベントリマインダー /sports/, message info 新しいメッセージ /messages/, sale success 商品が売れました /marketplace/, best answer success ベストアンサー選出 /research/qa/, deadline warning 応募期限 /career |
| Notifications.BuildQuotesSubject | src/context/NotificationContext.tsx:151-193 | every built message contains its subject (event title, sender, item, question or company) |
| Notifications.BuildTitlesDistinct | src/context/NotificationContext.tsx:151-193 | notices of different kinds have different titles |
| Notifications.NotificationCenter.constructor | src/context/NotificationContext.tsx:28-52 | the list starts as the initial notifications for the session's user |
| Notifications.NotificationCenter.UnreadCount | src/context/NotificationContext.tsx:114 | the unread count is at most the list length |
| Notifications.NotificationCenter.AddNotification | src/context/NotificationContext.tsx:63-85 | without a user nothing changes; otherwise the stamped notice is prepended and the unread count rises by one |
| Notifications.NotificationCenter.MarkAsRead | src/context/NotificationContext.tsx:87-93 | the list becomes MarkRead of the old one; the unread count does not rise |
| Notifications.NotificationCenter.MarkAllAsRead | src/context/NotificationContext.tsx:95-99 | the list becomes MarkAll of the old one; no unread remain |
| Notifications.NotificationCenter.ClearAll | src/context/NotificationContext.tsx:101-106 | the list is empty |
| Notifications.NotificationCenter.RemoveNotification | src/context/NotificationContext.tsx:108-112 | the list becomes WithoutId of the old one |
| Notifications.IsUnread | src/context/NotificationContext.tsx:114 | a notification is unread iff its read flag is false |
| Submission.Credit | src/context/TokenContext.tsx:57-65 | the log entry addTokens writes: an earn for the user, with amount, reason and time, without relatedId |
| Submission.RewardAndNotify | src/app/research/create/page.tsx:123-132 | the shared tail of every submit: credits the amount, logs the credit first, prepends the notice, keeps ledger consistency |
| ChatFormat.ToApi | src/lib/openai.ts:60-63 | own messages become user turns, others assistant turns, content unchanged, never a system turn |
| ChatFormat.FormatMessagesForApi | src/lib/openai.ts:57-64 | the result is the last ten messages (or all, if fewer), each converted, in order |
| ChatFormat.FormatShortHistory | src/lib/openai.ts:59 | a history of at most ten messages is sent whole, contents unchanged |
| ChatFormat.FormatIgnoresOlder | src/lib/openai.ts:59 | once ten recent messages exist, older ones do not affect the request |
| ChatFormat.FormatEndsWithNewest | src/lib/openai.ts:59 | the newest message is always the last turn sent |
| ChatFormat.BuildRequest | src/lib/openai.ts:41-44 | the request is the system prompt followed by the formatted turns |
| ChatFormat.RequestHasOneSystemMessage | src/lib/openai.ts:41-44 | only the first turn of a request is a system turn |
| ChatFormat.Reply | src/lib/openai.ts:47-53 | an answer yields non-empty text, its own content when non-empty; a failure yields the communication error |
| ChatFormat.ReplyFallsBack | src/lib/openai.ts:49 | an empty or missing answer yields the apology text |
| ChatRoute.Post | src/app/api/chat/route.ts:4-34 | status 200 with the answer iff the body parses, targets user "2", has messages and the AI call succeeds; every other outcome returns an error payload with status 400 or 500 |
| ChatRoute.RefusesOtherTargets | src/app/api/chat/route.ts:9-14 | any other target gets 400 with the refusal, whatever the AI would say |
| ChatRoute.ConsultsFormattedHistory | src/app/api/chat/route.ts:17-20 | the response depends on the AI only through the formatted request |
| ChatRoute.RelaysAnswer | src/app/api/chat/route.ts:22-25 | a non-empty AI answer is returned as success |
| ChatRoute.FailuresGive500 | src/app/api/chat/route.ts:27-32 | a malformed body or a failed AI call gives 500 with the server error |
| ChatRoute.Accepted | src/app/api/chat/route.ts:9-14 | a request is accepted iff it has a body whose target is user 2 |
| ChatRoute.Outgoing | src/app/api/chat/route.ts:17 | the messages sent to the AI: the system prompt, then the formatted history |
| FormLists.AddTrimmed | src/app/research/create/page.tsx:77-82 | a non-empty trimmed input not yet listed is appended trimmed; otherwise the list is unchanged |
| FormLists.AddTrimmedContains | src/app/research/create/page.tsx:77-82 | after adding, the trimmed input is listed iff it is non-empty or "" was already listed |
| FormLists.AddTrimmedTwice | src/app/research/create/page.tsx:77-82 | adding the same input twice equals adding it once |
| FormLists.AddTrimmedWellFormed | src/app/research/create/page.tsx:77-82 | adding keeps a list of distinct, trimmed, non-empty entries |
| FormLists.RemoveWellFormed | src/app/research/create/page.tsx:84-86 | removing keeps the list well formed |
| FormLists.UploadPaths | src/app/research/create/page.tsx:61-71 | one mock path per selected file, with the prefix, the time and the index |
| FormLists.AppendCapped | src/app/food/review/page.tsx:46-56 | new paths are appended and only the first five kept: the old list is a prefix, or is cut to the cap |
| FormLists.AppendCappedWhenFull | src/app/food/review/page.tsx:46-56 | a full list ignores further uploads |
| ResearchCreate.PaperRecord | src/app/research/create/page.tsx:107-120 | the user is the first author, followed by the co-authors; there is a password only for protected papers; counters start at 0 |
| ResearchCreate.PaperNotice | src/app/research/create/page.tsx:126-132 | a success notice titled 論文投稿完了 whose message quotes the title, linking to the new paper |
| ResearchCreate.ResearchPaperForm.constructor | src/app/research/create/page.tsx:25-38 | empty fields, a public access level, not loading |
| ResearchCreate.ResearchPaperForm.HandleFileUpload | src/app/research/create/page.tsx:61-71 | appends the selected files' mock paths (no cap) |
| ResearchCreate.ResearchPaperForm.RemoveFile | src/app/research/create/page.tsx:73-75 | removes the file at the index |
| ResearchCreate.ResearchPaperForm.AddKeyword | src/app/research/create/page.tsx:77-82 | applies AddTrimmed to the keyword input and clears the input when the keyword was taken |
| ResearchCreate.ResearchPaperForm.RemoveKeyword | src/app/research/create/page.tsx:84-86 | removes every copy of the keyword |
| ResearchCreate.ResearchPaperForm.AddCoAuthor | src/app/research/create/page.tsx:88-93 | the same rule for the co-author input |
| ResearchCreate.ResearchPaperForm.RemoveCoAuthor | src/app/research/create/page.tsx:95-97 | removes every copy of the co-author |
| ResearchCreate.ResearchPaperForm.HandleSubmit | src/app/research/create/page.tsx:99-149 | without a user nothing happens; otherwise returns the paper record, credits 20 tokens (the user record is the old one with 20 more tokens; the daily-bonus record and the fixture are unchanged) and posts the notice, and loading ends; every form field keeps its value |
| ResearchCreate.ResearchPaperForm.SubmitDisabled | src/app/research/create/page.tsx:426 | the submit button is disabled iff loading or the title, field or abstract is empty |
| FoodReview.ReviewRecord | src/app/food/review/page.tsx:91-101 | the review carries the author, dish, rating, comment, photos and tags, with no helpful votes |
| FoodReview.DishName | src/app/food/review/page.tsx:107 | the name of the first menu item with the id when it is non-empty, else 料理; 料理 also when no item has the id |
| FoodReview.DishNameOfFixture | src/app/food/review/page.tsx:107 | dish "2" of the fixture menu is カレーライス; an unknown id gives 料理 |
| FoodReview.ReviewNotice | src/app/food/review/page.tsx:108-114 | a success notice titled レビュー投稿完了 whose message quotes the dish, linking to the dish |
| FoodReview.ReviewForm.constructor | src/app/food/review/page.tsx:26-38 | no photos, no tags, rating 0, not loading |
| FoodReview.ReviewForm.HandleImageUpload | src/app/food/review/page.tsx:46-56 | appends the mock paths, capped at five; every other field keeps its value |
| FoodReview.ReviewForm.RemovePhoto | src/app/food/review/page.tsx:58-60 | removes the photo at the index |
| FoodReview.ReviewForm.AddTag | src/app/food/review/page.tsx:62-66 | appends the tag, untrimmed, unless it is already listed |
| FoodReview.ReviewForm.AddCustomTag | src/app/food/review/page.tsx:68-73 | applies AddTrimmed to the tag input and clears it when the tag was taken |
| FoodReview.ReviewForm.RemoveTag | src/app/food/review/page.tsx:75-77 | removes the tag |
| FoodReview.ReviewForm.ClickSuggestedTag | src/app/food/review/page.tsx:335 | a suggested badge toggles its tag: listed afterwards iff it was not listed before |
| FoodReview.ReviewForm.ClickStar | src/app/food/review/page.tsx:210-220 | the star at index i sets the rating to i+1, within 1..5 |
| FoodReview.ReviewForm.HandleSubmit | src/app/food/review/page.tsx:83-131 | no user or no rating: nothing happens; otherwise returns the review, credits 8 tokens (the user record is the old one with 8 more tokens; the daily-bonus record and the fixture are unchanged) and posts the notice naming the dish, and loading ends; every form field keeps its value |
| FoodReview.ReviewForm.SubmitDisabled | src/app/food/review/page.tsx:387 | the submit button is disabled iff loading, no dish is chosen, the comment is empty or the rating is 0 |
| MarketplaceCreate.ParsePrice | src/app/marketplace/create/page.tsx:83 | a price that parses gives its value; one that does not gives 0 |
| MarketplaceCreate.ParsePriceOfDigits | src/app/marketplace/create/page.tsx:83 | a price written in decimal digits reads back as the number |
| MarketplaceCreate.ParsePriceExamples | src/app/marketplace/create/page.tsx:83 | "" and "abc" give 0, "12abc" gives 12 |
| MarketplaceCreate.ItemRecord | src/app/marketplace/create/page.tsx:77-92 | the listing is available, has no views or favourites, belongs to the user and carries the parsed price |
| MarketplaceCreate.ListingNotice | src/app/marketplace/create/page.tsx:98-104 | a success notice titled 商品投稿完了 whose message quotes the title, linking to the item |
| MarketplaceCreate.MarketItemForm.constructor | src/app/marketplace/create/page.tsx:26-36 | empty fields, location 大学内, no delivery methods |
| MarketplaceCreate.MarketItemForm.HandleImageUpload | src/app/marketplace/create/page.tsx:44-54 | appends the mock paths, capped at five; every other field keeps its value |
| MarketplaceCreate.MarketItemForm.RemovePhoto | src/app/marketplace/create/page.tsx:56-58 | removes the photo at the index |
| MarketplaceCreate.MarketItemForm.HandleDeliveryMethodToggle | src/app/marketplace/create/page.tsx:60-67 | the method is listed afterwards iff it was not before; the other fields are unchanged and no method appears twice |
| MarketplaceCreate.MarketItemForm.HandleSubmit | src/app/marketplace/create/page.tsx:69-121 | without a user nothing happens; otherwise returns the item, credits 5 tokens (the user record is the old one with 5 more tokens; the daily-bonus record and the fixture are unchanged) and posts the notice, and loading ends; every form field keeps its value |
| MarketplaceCreate.MarketItemForm.SubmitDisabled | src/app/marketplace/create/page.tsx:331 | the submit button is disabled iff loading or the title, category, condition or description is empty |
| Seqs.Toggle | src/app/marketplace/create/page.tsx:60-67 | after a toggle the element is present iff it was absent; other elements stay present or absent |
| Seqs.ToggleTwiceRestores | src/app/marketplace/create/page.tsx:60-67 | two toggles restore the list when the element was absent or last |
| Seqs.ToggleTwiceSameMembers | src/app/marketplace/create/page.tsx:60-67 | two toggles always restore which elements are present |
| Seqs.ToggleTwiceReorders | src/app/marketplace/create/page.tsx:60-67 | two toggles can reorder: toggling "a" twice in ["a","b"] gives ["b","a"] |
| MarketplaceList.FilteredItems | src/app/marketplace/page.tsx:32-37 | exactly the items of the category (or all) whose title or description contains the term, ignoring case |
| MarketplaceList.FilteredKeepsOrder | src/app/marketplace/page.tsx:32-37 | the shown items keep the listing's order |
| MarketplaceList.EverythingByDefault | src/app/marketplace/page.tsx:32-37 | category "all" with an empty search shows every item |
| MarketplaceList.SearchIgnoresCase | src/app/marketplace/page.tsx:34-35 | lower-casing the search term first changes nothing |
| MarketplaceList.ConditionLabel | src/app/marketplace/page.tsx:43-51 | known conditions get a label other than a condition code; unknown ones pass through |
| MarketplaceList.ConditionLabelsDistinct | src/app/marketplace/page.tsx:43-51 | the four known conditions have four different labels |
| MarketplaceList.PriceLabel | src/app/marketplace/page.tsx:205 | a price of 0 shows as free, any other as its yen amount |
| MarketplaceList.ButtonLabel | src/app/marketplace/page.tsx:239-240 | 売り切れ iff sold, 予約済み iff reserved |
| MarketplaceList.ButtonLabelAgrees | src/app/marketplace/page.tsx:236-240 | an enabled button offers the details; a sold or reserved label is on a disabled button |
| MarketplaceList.Flip | src/app/marketplace/page.tsx:22-30 | the id's membership flips; other ids are unaffected |
| MarketplaceList.FlipTwice | src/app/marketplace/page.tsx:22-30 | toggling a favourite twice restores the set |
| MarketplaceList.FavoritesView.constructor | src/app/marketplace/page.tsx:20 | no favourites at first |
| MarketplaceList.FavoritesView.HandleToggleFavorite | src/app/marketplace/page.tsx:22-30 | the favourites become Flip of the old set |
| MarketplaceList.ButtonDisabled | src/app/marketplace/page.tsx:236 | the contact button is disabled iff the item is not available |
| MarketplaceList.MatchesCategory | src/app/marketplace/page.tsx:33 | an item matches iff the category is all or is the item's |
| MarketplaceList.MatchesSearch | src/app/marketplace/page.tsx:34-35 | an item matches iff its lower-cased title or description includes the lower-cased term |
| Messages.OtherParticipantId | src/app/messages/page.tsx:37-40 | a found id is a participant other than me with only me before it (the first match); none iff every participant is me |
| Messages.OtherParticipant | src/app/messages/page.tsx:37-40 | a found user is the first in the user list with the other participant's id; none iff there is no other participant, its id is empty, or no user has it |
| Messages.NoOtherParticipant | src/app/messages/page.tsx:37-40 | a conversation with only me has no other participant |
| Messages.OtherParticipantFound | src/app/messages/page.tsx:37-40 | when the other id belongs to a listed user, that user is found |
| Messages.ConversationMessages | src/app/messages/page.tsx:42-44 | exactly the messages of the conversation |
| Messages.ConversationMessagesInOrder | src/app/messages/page.tsx:42-44 | they keep their order |
| Messages.FilteredConversations | src/app/messages/page.tsx:46-51 | an empty search keeps every conversation; otherwise exactly those whose partner's name or last message contains the term |
| Messages.FilteredConversationsInOrder | src/app/messages/page.tsx:46-51 | the shown conversations keep their order |
| Messages.TotalUnreadAppend | src/app/messages/page.tsx:69 | the total unread count is additive over lists |
| Messages.TotalUnreadBounds | src/app/messages/page.tsx:69 | with non-negative counts the total is non-negative, bounds every count, and is 0 iff all are 0 |
| Messages.BlankNeverSent | src/app/messages/page.tsx:62 | a message of only whitespace trims to empty |
| Messages.MessagesPage.constructor | src/app/messages/page.tsx:16-18 | no search, no selection, an empty input |
| Messages.MessagesPage.SelectConversation | src/app/messages/page.tsx:18 | selects the conversation and keeps the rest |
| Messages.MessagesPage.HandleSendMessage | src/app/messages/page.tsx:61-67 | sends iff a conversation is selected and the trimmed input is non-empty; a send clears the input |
| Messages.MessagesPage.CanSend | src/app/messages/page.tsx:61-62 | a message can be sent iff the trimmed input is non-empty and a conversation is selected |
| Messages.MatchesSearch | src/app/messages/page.tsx:48-50 | a conversation matches iff the other user's name or the last message includes the term, both lower-cased |
| Messages.TotalUnread | src/app/messages/page.tsx:69 | the sum of the conversations' unread counts |
| Sports.FilteredEvents | src/app/sports/page.tsx:51-53 | "all" keeps every event; any other button keeps exactly the events of that sport |
| Sports.FilteredEventsInOrder | src/app/sports/page.tsx:51-53 | the shown events keep their order |
| Sports.NamedButtonsShowNothing | src/app/sports/page.tsx:116 | the sport names on the buttons match no fixture event, whose sports are ids |
| Sports.JoinCaption | src/app/sports/page.tsx:194-196 | the button says 満員 iff the event has a limit and is at or over it |
| Sports.FixtureEventsOpen | src/lib/mock-data.ts:65-102 | no fixture event is full |
| Sports.ShownParticipants | src/app/sports/page.tsx:176-180 | exactly the first min(3, n) participants are shown |
| Sports.OverflowBadge | src/app/sports/page.tsx:176-180 | the +N badge appears iff there are more than three participants, and N is the count minus three, with three shown |
| Sports.SkillLevelLabel | src/app/sports/page.tsx:42-49 | known levels get a label other than a level code; unknown ones pass through |
| Sports.SkillLevelLabelsDistinct | src/app/sports/page.tsx:42-49 | the three levels have three different labels |
| Sports.ParticipateNoticeIsBuilder | src/app/sports/page.tsx:22-31 | joining posts exactly the event-participation notice of the builder |
| Sports.HandleParticipate | src/app/sports/page.tsx:22-31 | with a user, that notice is prepended; without one nothing changes |
| Sports.IsFull | src/app/sports/page.tsx:194-196 | an event is full iff it has a maximum and at least that many participants |
| Sports.PlaysSport | src/app/sports/page.tsx:50-52 | the sport filter's test: the event's sport is the selected one |
| Sports.ParticipateNotice | src/app/sports/page.tsx:22-31 | the join notice: success, イベント参加, the event title with への参加が確定しました, linking to the event |
| SportsCreate.EventRecord | src/app/sports/create/page.tsx:62-73 | the creator is the only participant, the status is upcoming, the limit is the parsed text, the date joins date and time with T |
| SportsCreate.DefaultLimitIsTen | src/app/sports/create/page.tsx:25-37 | the default limit text parses to 10 |
| SportsCreate.EventNotice | src/app/sports/create/page.tsx:79-85 | a success notice titled イベント作成完了 whose message quotes the title, linking to the event |
| SportsCreate.MinTime | src/app/sports/create/page.tsx:118-120 | on today's date the earliest time is the current HH:MM, otherwise 00:00 |
| SportsCreate.SportsEventForm.constructor | src/app/sports/create/page.tsx:25-37 | empty fields, limit "10", level beginner, no equipment |
| SportsCreate.SportsEventForm.ToggleEquipment | src/app/sports/create/page.tsx:331 | flips the equipment flag and nothing else |
| SportsCreate.SportsEventForm.HandleSubmit | src/app/sports/create/page.tsx:51-102 | without a user nothing happens; otherwise returns the event, credits 10 tokens (the user record is the old one with 10 more tokens; the daily-bonus record and the fixture are unchanged) and posts the notice, and loading ends; every form field keeps its value |
| SportsCreate.SportsEventForm.SubmitDisabled | src/app/sports/create/page.tsx:366 | the submit button is disabled iff loading or the title, sport, date, time, location or description is empty |
| Food.FilteredMenuItems | src/app/food/page.tsx:30-32 | "all" keeps every dish; otherwise exactly the dishes of the category |
| Food.FilteredMenuItemsInOrder | src/app/food/page.tsx:30-32 | the shown dishes keep their order |
| Food.FixtureMenuCategories | src/lib/mock-data.ts:104-135 | the fixture menu has two Japanese dishes and no Chinese one |
| Food.Resolve | src/app/food/page.tsx:149-153 | a card carries the review with its author and dish; there is none iff the author or the dish is missing |
| Food.ShownReviews | src/app/food/page.tsx:149-153 | every shown card resolves its own review |
| Food.ShownReviewsComplete | src/app/food/page.tsx:149-153 | every review that resolves is shown |
| Food.FilledStarsCount | src/app/food/page.tsx:175-183 | of n stars, the number filled is the rating clipped to the range 0..n |
| Food.JoinCaption | src/app/food/page.tsx:281-282 | 締切済み when not open, else 満員 when full, else 参加する |
| Food.JoinCaptionAgrees | src/app/food/page.tsx:279-282 | the caption is 参加する iff the join button is enabled |
| Food.JoinDisabled | src/app/food/page.tsx:279 | the join button is disabled iff the invitation is not open or is full |
| Food.StarFilled | src/app/food/page.tsx:175-183 | star i is filled iff i is below the rating |
| Food.FilledStars | src/app/food/page.tsx:175-183 | the number of filled stars among the first n |
| Navigation.ActiveIsPrefix | src/components/layout/Sidebar.tsx:103-104 | an active item's href is a prefix of the path |
| Navigation.HomeOnlyAtRoot | src/components/layout/Sidebar.tsx:103-104 | home is active only at "/" |
| Navigation.SubpathActivates | src/components/layout/Sidebar.tsx:103-104 | any path below an item's href activates it |
| Navigation.NotSegmentAware | src/components/layout/Sidebar.tsx:103-104 | "/sportsX" also activates "/sports", because matching is by prefix |
| Navigation.BottomItemsExact | src/components/layout/Sidebar.tsx:120 | the bottom items are active only on their exact path |
| Navigation.VisibleTabs | src/components/layout/MobileTabNav.tsx:30 | exactly the first min(6, n) tabs |
| Navigation.PrefixesComparable | src/components/layout/Sidebar.tsx:103-104 | two prefixes of one path are prefixes of each other |
| Navigation.AtMostOneActive | src/components/layout/Sidebar.tsx:103-104 | in a table whose hrefs do not prefix one another, at most one item is active |
| Navigation.DifferAt | src/components/layout/Sidebar.tsx:22-29 | strings that differ at a position are distinct and neither prefixes the other |
| Navigation.SeparatedIsUnambiguous | src/components/layout/Sidebar.tsx:22-29 | hrefs that differ at a position below both lengths make the table unambiguous |
| Navigation.TabTableUnambiguous | src/components/layout/MobileTabNav.tsx:15-22 | the tab table is unambiguous, so at most one tab is highlighted |
| Navigation.SidebarTableUnambiguous | src/components/layout/Sidebar.tsx:22-29 | the sidebar table is unambiguous |
| Navigation.IsActive | src/components/layout/Sidebar.tsx:103-104 | a sidebar item is active iff the path equals its href, or its href is not / and the path starts with it |
| Navigation.IsBottomActive | src/components/layout/Sidebar.tsx:120 | a bottom item is active iff the path equals its href |
| Header.Badge | src/components/layout/Header.tsx:101-107 | no badge iff nothing is unread; 9+ above nine; otherwise the count as one digit |
| Header.View | src/components/layout/Header.tsx:32-143 | balance and bell iff a user is signed in; the bell lists exactly the first min(5, n) notifications, offers see-all iff there are more, and badges the unread count |
| Header.SeeAllWhenTruncated | src/components/layout/Header.tsx:116-143 | when see-all is offered, exactly five are listed |
| Header.BadgeClearedByMarkAll | src/components/layout/Header.tsx:101-107 | after marking all read the badge disappears |
| Header.DemoBadge | src/components/layout/Header.tsx:101-107 | the demo user's bell shows 2 |
| PostCard.SectionLabel | src/components/common/PostCard.tsx:58-67 | known sections get a label other than a section code; unknown ones pass through |
| PostCard.SectionLabelsDistinct | src/components/common/PostCard.tsx:58-67 | the five sections have five different labels |
| PostCard.ShownImages | src/components/common/PostCard.tsx:121 | exactly the first min(4, n) images are shown |
| PostCard.Overlay | src/components/common/PostCard.tsx:130-132 | the +N overlay sits on the fourth image iff there are more than four |
| PostCard.OverlayCountsHidden | src/components/common/PostCard.tsx:130-132 | the overlay is on the last shown image and counts exactly the hidden ones |
| PostCard.NoOverlayUpToFour | src/components/common/PostCard.tsx:130-132 | four or fewer images show no overlay |
| PostCard.Click | src/components/common/PostCard.tsx:41-45 | a click flips the like and moves the count by one in that direction |
| PostCard.ClickTwice | src/components/common/PostCard.tsx:41-45 | two clicks restore the state |
| PostCard.ClickKeepsOthers | src/components/common/PostCard.tsx:41-45 | the likes from other users are unchanged by a click |
| PostCard.PostCardView.constructor | src/components/common/PostCard.tsx:38-39 | starts from the given like flag and the post's count, with no callback calls |
| PostCard.PostCardView.HandleLike | src/components/common/PostCard.tsx:41-45 | applies Click to the state and reports the post id to the callback |
| Settings.Update | src/app/settings/page.tsx:43-51 | sets the key, adds it if new, keeps every other key |
| Settings.UpdateOverwrites | src/app/settings/page.tsx:43-71 | a second update of a key overrides the first |
| Settings.UpdatesCommute | src/app/settings/page.tsx:43-71 | updates of different keys commute |
| Settings.UpdateSameValue | src/app/settings/page.tsx:43-71 | writing a key's current value changes nothing |
| Settings.DefaultsAsDeclared | src/app/settings/page.tsx:20-41 | the defaults: email on, push off, public profile, email hidden, light theme, compact off |
| Settings.SettingsPage.constructor | src/app/settings/page.tsx:20-41 | the three groups start at their defaults |
| Settings.SettingsPage.UpdateNotificationSetting | src/app/settings/page.tsx:43-51 | updates the notification group only |
| Settings.SettingsPage.UpdatePrivacySetting | src/app/settings/page.tsx:53-61 | updates the privacy group only |
| Settings.SettingsPage.UpdateAppearanceSetting | src/app/settings/page.tsx:63-71 | updates the appearance group only |
| Settings.SettingsPage.HandleLogout | src/app/settings/page.tsx:319 | signs the user out |
| Ranking.TokensForPeriod | src/app/ranking/page.tsx:44-53 | monthly, weekly and total periods show their own counts |
| Ranking.DefaultShowsTotal | src/app/ranking/page.tsx:16 | the page opens on the total count |
| Ranking.Podium | src/app/ranking/page.tsx:141 | at most the first three rows |
| Ranking.BelowPodium | src/app/ranking/page.tsx:185 | every row after the third |
| Ranking.PodiumAndRestPartition | src/app/ranking/page.tsx:141-185 | podium and rest together are the whole ranking, in order |
| Ranking.ShownAchievements | src/app/ranking/page.tsx:166-204 | exactly the first min(3, n) achievements on the podium, min(2, n) below it |
| Ranking.RankIconOf | src/app/ranking/page.tsx:18-29 | ranks 1 to 3 get icons, any other rank shows its number |
| Ranking.PodiumIconsDistinct | src/app/ranking/page.tsx:18-29 | the three podium icons differ |
| Ranking.CurrentUserRanking | src/app/ranking/page.tsx:55 | the first row of the current user; none without a user or without a row |
| Ranking.LeaderFindsOwnRow | src/app/ranking/page.tsx:55 | the leader finds the first row |
| Home.Greeting | src/app/page.tsx:49-54 | morning before 12, afternoon before 18, evening after |
| Home.GreetingPeriods | src/app/page.tsx:49-54 | each greeting covers one contiguous span of hours |
| Home.Welcome | src/app/page.tsx:68-70 | a welcome line iff a user is present, and it is the greeting, 、, the user's name and さん！ |
| Home.FeedSlice | src/app/page.tsx:119 | exactly the first min(8, n) activities |
| Home.UpcomingSlice | src/app/page.tsx:131 | exactly the first min(3, n) events |
| Home.NewSportsEvents | src/app/page.tsx:172 | the count of upcoming events is at most the number of events |
| Home.NewSportsEventsZero | src/app/page.tsx:172 | it is 0 iff no event is upcoming |
| Home.FixtureAllUpcoming | src/app/page.tsx:172-176 | every fixture event is upcoming |
| Home.IsUpcoming | src/app/page.tsx:172 | an event counts as new iff its status is upcoming |
| Text.TrimSpec | src/app/research/create/page.tsx:78 | the trimmed string is a piece of the input with no surrounding whitespace |
| Text.TrimIdempotent | src/app/research/create/page.tsx:78 | trimming twice equals trimming once |
| Text.ToLowerIdempotent | src/app/marketplace/page.tsx:34-35 | lower-casing twice equals lower-casing once |
| Text.ContainsSpec | src/app/marketplace/page.tsx:34-35 | includes holds iff the needle occurs at some position |
| Text.ParseIntOfNatToString | src/app/sports/create/page.tsx:68 | a decimal numeral parses back to its value |
| Text.ParseIntStopsAtNonDigit | src/app/sports/create/page.tsx:68 | parsing stops at the first non-digit |
| Text.ParseIntHex | src/app/sports/create/page.tsx:68 | a 0x prefix is read as hexadecimal, as JavaScript's parseInt does |
| Text.Trim | src/app/research/create/page.tsx:78 | String.prototype.trim: strips ECMAScript white space and line terminators from both ends; TrimSpec states its meaning |
| Text.ToLower | src/app/marketplace/page.tsx:34-35 | lower-cases ASCII letters and keeps the length |
| Text.Contains | src/app/marketplace/page.tsx:34-35 | String.prototype.includes; ContainsSpec states its meaning |
| Text.StartsWith | src/components/layout/Sidebar.tsx:104 | String.prototype.startsWith: the prefix is a prefix of the string |
| Text.ParseInt | src/app/sports/create/page.tsx:68 | one-argument parseInt; the three ParseInt lemmas state its behaviour |

## Left out

- Browser storage: the load from storage is the `Stored<T>` value given to each constructor. The writes back to storage are not modelled.
- The browser's Notification API popup in addNotification is not modelled, and neither is its permission request.
- Timers, router navigation and rendering are not modelled: the `setTimeout` delays in login and the submits, `router.push`, and all JSX layout.
- The clock is the `now` parameter.
  - Each file gets one shared timestamp; the id suffix tells the files apart.
  - Transaction and record ids are built from `now`, so the model makes no claim that ids are unique.
- Tokens.TokenLedger.AddTokens: the source computes the new balance from the `user` captured when the component last rendered. Two calls in one render would both read that stale value. The model reads the current user instead.
- Auth.AuthSession.Login: the `isLoading` flag and the one-second delay are not modelled.
- Text.ToLower: only ASCII letters are lower-cased. Full Unicode case mapping is not modelled.
- Text.Trim removes the full ECMAScript WhiteSpace and LineTerminator set, as `String.prototype.trim` does.
- Tokens.TokenLedger.SortNewestFirst: the order of entries with equal dates is not stated. JavaScript's sort is stable, and the model makes no claim about ties.
- The AI client and the prompt text are not modelled: the system prompt is a parameter and the AI call is a function parameter of `ChatRoute.Post`.
- Dates are not parsed or formatted. This covers `toLocaleString` and the grouping of yen amounts. The event form joins date and time as text.
- The fixture dates, such as `new Date('2025-06-10T10:00:00')` in src/lib/mock-data.ts, carry no offset, so JavaScript reads them as local time. The model reads them as UTC milliseconds. Their relative order is the same either way, and no property depends on the absolute value.
- The `try/catch` blocks around every submit are not modelled: no modelled step can throw.
- Optional fields set to `undefined` in a profile patch are treated as absent.
- The hover state of the review page's stars is not modelled; only the clicked rating is.
- The event form's equipment, registration-deadline and contact fields are kept as state. The record that submit builds does not carry them, as in the source.
- The header's search toggle (`searchOpen`) is not modelled: it only shows or hides markup.
- `mockTokenRankings`, `mockConversations` and `mockMessages` are imported by the ranking and messages pages but not defined in src/lib/mock-data.ts. Their rows are parameters of the model.
- Text.ParseInt: the optional radix argument of JavaScript's `parseInt` is not modelled. Only the one-argument form is, with sign, leading whitespace and the `0x` prefix.
