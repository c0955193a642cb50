# Tutor marketplace core, in Dafny

This project models the logic at the heart of a small tutor-marketplace web app. The app
lets students search tutors, message them, and lets tutors edit their profile and weekly
availability. There is no server: an in-memory mock API plays the back end, and a
singleton messaging service plays the push channel. The model covers:

- **Tutor search** (`TutorSearch`). The five optional, truthiness-gated filters of
  `searchTutors` (case-insensitive location and subject substrings, minimum and maximum
  hourly rate, minimum experience) run as a chain over the tutor list. The result is the
  page `[offset, offset + limit)` with a `hasMore` flag. The defaults are `offset || 0`
  and `limit || 4`.
- **The mock API's tables** (`MockApi`). This covers the seed data, `getTopTutors`,
  `getTutorById`, `getConversationById`, and `getConversations`, which filters the
  conversations and sorts them newest first by last message, stably. It also covers
  `getTutorIdFromMessage` and `loginUser`. The class `MockStore` holds the tutor, user
  and conversation tables. Its methods are `addMessage` (find-or-create a two-person
  conversation) and `updateUserProfile` (merge into a tutor, and copy into that tutor's
  user entry, or else merge into a user).
- **Messaging** (`Messaging`). The class `MessagingService` holds the listener set and the
  connected user. `broadcast` calls every listener once, in subscription order.
  `notifyNewMessage` adds the auto-reply rule: a tutor answers a student's message with a
  fixed text quoting its first 20 characters. `sendMessage` and the reply's timer callback
  combine the store with the service.
- **Availability** (`AvailabilityEditor`, `AvailabilityDisplay`). These are the four
  copy-and-edit handlers of the editor on a `day -> slots` map, and the invariant they keep
  (no ticked day without a slot). The display shows the days with slots in Sunday-first
  order, marks each slot booked when `day|slot` is in the fixed booking set, and shows
  "Not specified" when no day has a slot.
- **Conversation page** (`ConversationPage`). This covers the reducer that merges a pushed
  message into the open conversation (ignore other conversations and duplicate ids,
  otherwise append), the lookup of the other participant, and the guard on sending.
- **Search page** (`SearchPage`). This covers the URL parameters the form writes, the
  query the page builds from them, and the result list. A new search replaces the list;
  "Show More Tutors" appends the next page and advances the offset by 4.

`Builtins` gives the JavaScript library functions these rely on, read the way the language
defines them:

- `slice` with negative and out-of-range bounds, `filter`, `find` and `findIndex`;
- `toLowerCase` on ASCII letters, `includes`, `substring` with clamping and swapped bounds,
  `trim` with ECMAScript white space, and `Number` on decimal integers.

`Types` mirrors the record shapes. Identifiers and timestamps that the app takes from the
clock (`Date.now()`) are parameters of the operations. A timestamp is an integer count of
milliseconds, which orders the same way as the ISO strings the app stores.

## Model

| member | source | states |
|---|---|---|
| TutorSearch.SearchTutors | services/api.ts:208-233 | every returned tutor is in the list and satisfies each given filter; the page is exactly the slice `[offset, offset+limit)` of the filtered list in list order; at most `limit` tutors, at most 4 when no limit (or 0) is given; `hasMore` holds iff `offset + limit` is below the number of matches |
| TutorSearch.UnfilteredPageIsSlice | services/api.ts:208-233 | with no filter switched on, the page is the slice `[offset, offset+limit)` of the whole list |
| TutorSearch.CriteriaMeanMatches | services/api.ts:211-225 | a tutor passes every filter the query switches on iff it meets each given filter, and a filter that is absent, empty or 0 asks nothing |
| TutorSearch.ChainIsOnePass | services/api.ts:210-225 | running the filters one after another keeps the same tutors, in the same order, as one filter testing all of them |
| TutorSearch.FilteredMeansMatches | services/api.ts:210-225 | the filtered list is the tutor list filtered by the query's direct reading |
| Builtins.FilterTwice | services/api.ts:211-225 | two successive `filter` calls equal one `filter` by both tests |
| Builtins.FilterKeepsPassing | services/api.ts:211-225 | every element that passes the test is kept by `filter` |
| Builtins.FilterKeepsOrder | components/AvailabilityDisplay.tsx:20 | filtering a list that increases in a rank gives a list that increases in that rank |
| MockApi.SeedUsers | services/api.ts:149-152 | the user table is the test student followed by one entry per tutor, with the tutor's id, name and picture |
| MockApi.GetTopTutors | services/api.ts:204-207 | the first four tutors (all of them when fewer), as a prefix of the list |
| MockApi.GetTutorById | services/api.ts:234-237 | none iff no tutor has the id; otherwise the first tutor in the list with that id |
| MockApi.GetConversationById | services/api.ts:295-298 | none iff no conversation has the id; otherwise the first conversation in the list with that id |
| MockApi.InsertByActivity | services/api.ts:293 | inserting a conversation adds exactly it to the multiset and keeps every conversation non-empty |
| MockApi.InsertKeepsNewestFirst | services/api.ts:293 | inserting into a newest-first list by last-message time gives a newest-first list |
| MockApi.SortByActivity | services/api.ts:293 | the sorted list is newest first by last message and a permutation of the input |
| MockApi.GetConversations | services/api.ts:289-294 | exactly the conversations with a participant of the id (as a multiset of the filtered list), newest first by last message |
| MockApi.GetTutorIdFromMessage | services/api.ts:299-303 | taking the first conversation that holds a message with the same id: an id is returned iff there is such a conversation and one of its participants' ids does not contain "student", and it is the id of the first such participant |
| MockApi.LoginUser | services/api.ts:247-259 | success iff the password is "password" and the email is one of the two fixed ones; a token iff success, "fake-jwt-token-tutor", "Tutor login successful!" and the table's first tutor with id "1" (none when there is none) for the tutor email, and "fake-jwt-token", "Login successful!" and the first user for the student email; otherwise no user, no token and "Invalid email or password." |
| MockApi.MergeTutorIdempotent | services/api.ts:264 | applying the same update twice is applying it once; each of the twelve fields takes the update's value when the update gives one and otherwise keeps its value |
| MockApi.MockStore.constructor | services/api.ts:5-163 | the tables start as the seven seed tutors, their user entries and the one seed conversation, and every conversation has a message |
| MockApi.MockStore.AddMessage | services/api.ts:168-199 | with a two-person conversation between sender and receiver, the first one gets the message appended and every other conversation is unchanged; without one, a new conversation `[sender, receiver]` holding only the message is appended when both users exist, and otherwise "User not found" is returned and nothing changes; the tutor and user tables never change |
| MockApi.MockStore.UpdateUserProfile | services/api.ts:260-282 | for a tutor id, only that tutor is replaced by the merge and only that user entry takes the new name and picture; otherwise, for a user id, only that user is replaced by the merge; for an unknown id nothing changes and `success` is false; conversations never change |
| AvailabilityEditor.HandleDayToggle | components/AvailabilityEditor.tsx:13-23 | the day is listed iff ticked; ticking keeps the existing slots or adds `[""]`; every other day is unchanged; no day is left without a slot |
| AvailabilityEditor.HandleTimeSlotChange | components/AvailabilityEditor.tsx:25-33 | no call for an unlisted day; otherwise only slot `index` of that day changes, to the new value, and the length and every other day stay |
| AvailabilityEditor.HandleAddTimeSlot | components/AvailabilityEditor.tsx:35-41 | no call for an unlisted day; otherwise one empty slot is appended after the existing ones and every other day stays |
| AvailabilityEditor.RemoveAt | components/AvailabilityEditor.tsx:46 | for an index in range, exactly that element is dropped and the others keep their order; otherwise the list is unchanged |
| AvailabilityEditor.HandleRemoveTimeSlot | components/AvailabilityEditor.tsx:43-55 | no call for an unlisted day; otherwise the remaining slots are kept, the day is removed when none remain, and every other day stays; no day is left without a slot |
| AvailabilityEditor.RemovingLastSlotUnticks | components/AvailabilityEditor.tsx:47-49 | removing the only slot of a day removes the day |
| AvailabilityEditor.ToggleIsIdempotent | components/AvailabilityEditor.tsx:13-21 | toggling a day to the same state twice is toggling it once |
| AvailabilityDisplay.WeekIsOrdered | components/AvailabilityDisplay.tsx:8 | the fixed day list runs Sunday to Saturday |
| AvailabilityDisplay.AvailableDays | components/AvailabilityDisplay.tsx:20 | a day is shown iff it is listed with at least one slot, and the days come in Sunday-to-Saturday order |
| AvailabilityDisplay.BookingKeyInjective | components/AvailabilityDisplay.tsx:43 | two (day, slot) pairs with the same `day\|slot` key are the same pair |
| AvailabilityDisplay.BookedSlotsAre | components/AvailabilityDisplay.tsx:12-16 | a slot is booked iff it is Tuesday 4:00 PM - 8:00 PM, Saturday 10:00 AM - 4:00 PM or Monday 6:00 PM - 10:00 PM |
| AvailabilityDisplay.RowFor | components/AvailabilityDisplay.tsx:35-43 | a day's row shows every slot of the day, in list order, each with its booked mark |
| AvailabilityDisplay.NoDaysShown | components/AvailabilityDisplay.tsx:20-24 | no day is shown iff every listed day has no slot |
| AvailabilityDisplay.Render | components/AvailabilityDisplay.tsx:19-60 | the "Not specified" notice iff no listed day has a slot; otherwise one row per available day, in week order |
| ConversationPage.HandleNewMessage | pages/ConversationPage.tsx:46-57 | a payload for another conversation or a null state changes nothing; a message whose id is present changes nothing; otherwise the message is appended after the existing ones |
| ConversationPage.SharedConversationHidesPush | pages/ConversationPage.tsx:35-54 | when the page state is the store's own conversation, already holding the pushed message, the reducer returns that state, so the push itself schedules no render and leaves the last render, without the new message, as it was |
| ConversationPage.CopiedConversationShowsPush | pages/ConversationPage.tsx:46-54 | when the page keeps its own copy of the conversation, a pushed message with a new id is appended and shown last |
| ConversationPage.MergeIsIdempotent | pages/ConversationPage.tsx:50-54 | delivering the same payload twice gives the state delivering it once gives |
| ConversationPage.MergeKeepsIdsUnique | pages/ConversationPage.tsx:50-54 | the earlier messages stay a prefix, at most one message is added, and message ids stay distinct |
| ConversationPage.OtherParticipant | pages/ConversationPage.tsx:71 | the first participant whose id differs from the current user's (the first participant when nobody is logged in); none iff there is no conversation or no such participant |
| ConversationPage.HandleSendMessage | pages/ConversationPage.tsx:73-86 | nothing is sent iff the trimmed text is empty, nobody is logged in or there is no other participant; otherwise the untrimmed text goes from the current user to the other participant |
| ConversationPage.BlankTextIsNotSent | pages/ConversationPage.tsx:75 | sending is refused iff every character of the text is white space, or the sender or receiver is missing |
| Messaging.AddListener | services/messagingService.ts:25-27 | the listener set gains exactly the callback, and adding a present callback changes nothing; listeners stay distinct |
| Messaging.RemoveListener | services/messagingService.ts:29-31 | the listener set loses exactly the callback; removing an absent callback changes nothing |
| Messaging.RemoveKeepsDistinct | services/messagingService.ts:12 | removing keeps the listeners distinct |
| Messaging.SubscribeIsIdempotent | services/messagingService.ts:25-27 | subscribing twice has the effect of subscribing once |
| Messaging.EachListenerCalledOnce | services/messagingService.ts:33-35 | a broadcast calls each subscribed listener exactly once, in order and with the payload, and no other listener |
| Messaging.ReplyText | services/messagingService.ts:49 | the reply is the fixed template around the first 20 characters of the original text (all of it when shorter) |
| Messaging.SimulateTutorResponse | services/messagingService.ts:42-62 | a reply is scheduled iff the sender id contains "student" and a tutor with a non-empty id is found for the message; it goes from that tutor to the sender with the template text |
| Messaging.ReplyIsNotAnswered | services/messagingService.ts:44 | the tutor's reply never triggers a reply of its own |
| Messaging.MessagingService.constructor | services/messagingService.ts:11-13 | no listeners and no connected user |
| Messaging.MessagingService.Connect | services/messagingService.ts:15-18 | the connected user becomes the id; the listeners stay |
| Messaging.MessagingService.Disconnect | services/messagingService.ts:20-23 | the connected user becomes null; the listeners stay |
| Messaging.MessagingService.Subscribe | services/messagingService.ts:25-27 | the listener set becomes `AddListener` of the old one and stays distinct |
| Messaging.MessagingService.Unsubscribe | services/messagingService.ts:29-31 | the listener set becomes `RemoveListener` of the old one and stays distinct |
| Messaging.MessagingService.Broadcast | services/messagingService.ts:33-35 | the calls made are one per listener in subscription order, and each listener is called exactly once |
| Messaging.MessagingService.NotifyNewMessage | services/messagingService.ts:37-40 | the broadcast of the payload, then the auto-reply rule on its message |
| Messaging.SendMessage | services/api.ts:283-288 | the tutor and user tables never change; with a two-person conversation between sender and receiver, the first one gets the message appended, the message is returned and broadcast to every listener with that conversation's id; without one, when both users are known a new conversation `[sender, receiver]` holding only the message is appended and the message is broadcast with its id; otherwise "User not found", no change, no broadcast and no reply; after a success the auto-reply rule runs on the new tables |
| Messaging.DeliverReply | services/messagingService.ts:48-58 | the reply goes through `addMessage` from the tutor to the student: the same three cases as `sendMessage` (append to the first conversation between them, open a new one when both are known, or "User not found" with no change), with the tutor and user tables unchanged, and a success broadcast, with the id of the conversation stored into, to the listeners present when the timer fires |
| SearchPage.Get | pages/SearchPage.tsx:17-21 | a missing parameter reads as the empty string |
| SearchPage.FormFromParams | pages/SearchPage.tsx:17-21 | every input starts as its parameter, or empty |
| SearchPage.Put | pages/SearchPage.tsx:69-73 | a key is set only for a non-empty value |
| SearchPage.HandleSearch | pages/SearchPage.tsx:66-75 | a parameter is present iff its input is non-empty, and it holds that input |
| SearchPage.SearchRestoresForm | pages/SearchPage.tsx:17-21 | reloading the page on the parameters of a search shows the same form |
| SearchPage.ReloadedSearchKeepsParams | pages/SearchPage.tsx:66-75 | searching again from a reloaded form keeps exactly the non-empty parameters |
| SearchPage.HandleClearFilters | pages/SearchPage.tsx:77-84 | every input becomes empty and the parameters become `{}` |
| SearchPage.ClearedSearchFiltersNothing | pages/SearchPage.tsx:77-84 | after clearing, the query switches no filter on and every tutor matches |
| SearchPage.ClearedFirstPageIsTopTutors | pages/SearchPage.tsx:28-36 | after clearing, the first page is the first four tutors |
| SearchPage.NumberParam | pages/SearchPage.tsx:31-33 | an absent or empty numeric parameter gives no filter value |
| SearchPage.TextParam | pages/SearchPage.tsx:29-30 | a text parameter is given iff it is non-empty, and it is then the parameter |
| SearchPage.QueryFor | pages/SearchPage.tsx:28-36 | the query asks for the given offset and a limit of 4 |
| SearchPage.QueryFollowsForm | pages/SearchPage.tsx:68-73 | a text filter is on iff its input is non-empty, with that text; a numeric filter is on iff its input is non-empty and reads as a non-zero number, with that number |
| SearchPage.WantedAtAnyOffset | pages/SearchPage.tsx:28-36 | the offset of the query does not change which tutors match |
| SearchPage.PageAt | pages/SearchPage.tsx:28-36 | the page at an offset is the next 4 wanted tutors, and more follow iff the offset plus 4 is below their number |
| SearchPage.FirstFetch | pages/SearchPage.tsx:25-45 | a new search shows the first 4 wanted tutors, sets the offset to 4, and offers more iff there are more than 4 |
| SearchPage.NextFetch | pages/SearchPage.tsx:40-45 | "show more" on a list of the wanted tutors before the offset extends it to those before the offset plus 4 |
| SearchPage.LoadedIsPrefix | pages/SearchPage.tsx:23-51 | after a new search and k-1 "show more" fetches, the list is the first `min(4k, n)` wanted tutors, the offset is 4k, and more are offered iff 4k < n |
| SearchPage.LoadedShowsOnlyMatches | pages/SearchPage.tsx:23-51 | every tutor shown is a listed tutor matching the search |
| SearchPage.SearchPageState.constructor | pages/SearchPage.tsx:11-14 | an empty list, offset 0, and more offered |
| SearchPage.SearchPageState.SetSearchParams | pages/SearchPage.tsx:53-64 | the parameters become the new ones; when they differ from the old ones the list is cleared, the offset reset to 0 and more offered; when they are the same the effect does not run and the list, offset and flag stay as they were |
| SearchPage.SearchPageState.FetchTutors | pages/SearchPage.tsx:23-51 | the new list, offset and flag are one `Fetch` step from the old ones, and the parameters stay |

## Left out

- Latency and asynchrony. `await delay(...)`, promises, and the 2-second `setTimeout` of the
  auto-reply are not modelled. The reply is a value (`ScheduledReply`) saying a reply is
  due; `DeliverReply` is what the timer does when it fires. Interleavings with other
  events during the wait are not modelled.
- Identifiers and clock. `Date.now()` and `new Date().toISOString()` become parameters
  (`messageId`, `conversationId`, `timestamp`, `now`). Timestamps are integers.
- Ratings. The `rating` field is a floating-point number that no modelled operation reads,
  so the tutor record leaves it out.
- Reviews and registration. `getReviews` returns a constant list and `registerUser` only
  echoes its input, so both are not part of this model.
- Logging. `console.log`, `console.debug` and `console.error` are left out.
- Object identity. The tables keep records as values. In the app, conversation participants
  are the user objects of `mockUsers`, but `updateUserProfile` writes new objects into the
  tables (api.ts:265, 269, 277), so there too an earlier participant keeps its old name.
  Where identity does matter is the open conversation: `getConversationById` returns the
  store's own object and the page keeps it as its state, and `addMessage` pushes into that
  object's `messages` (api.ts:185) before the broadcast. The model keeps the page state as
  a value of its own; the effect of the sharing is stated by
  `ConversationPage.SharedConversationHidesPush` and listed under Findings.
- The JavaScript `Set` of callbacks is a sequence of distinct listener ids. A listener that
  subscribes or unsubscribes during a broadcast is not modelled.
- `Number(...)` on search parameters. Only decimal integers with an optional sign are
  read. Fractions, exponents, hex and `Infinity` read as `NaN`, which is "no filter".
- `toLowerCase` maps only the ASCII letters.
- Messaging.ReplyText: quotes the first 20 characters (Unicode scalar values) of the
  message, where `substring(0, 20)` counts UTF-16 code units. For text with characters
  outside the Basic Multilingual Plane (emoji) the app quotes fewer characters and may cut
  a surrogate pair in half; `Builtins.Substring` counts characters in the same way.
- MockApi.SortByActivity: the contracts state newest first and a permutation, but not that
  conversations with equal last-message times keep their order (the stability of
  `Array.prototype.sort`), although the insertion sort keeps it.
- MockApi.MergeUser: `{ ...user, ...updates }` also copies the tutor-only fields of the
  update into the user object. The model keeps only the id, name and picture a user has.
- AvailabilityEditor.HandleTimeSlotChange: requires the index to be within the day's
  slots. The editor only passes indices of rendered slots, and a write outside them
  would make a sparse JavaScript array.
- SearchPage.SearchPageState.SetSearchParams: compares the parameters as a map, where the
  router compares the query string. The form always writes the keys in the same order, so
  the two agree for parameters the form writes; a hand-typed URL with the same parameters in
  another order counts as unchanged here but as changed in the app.
- The URL's other parameters. `SearchParams` maps the five parameter names the page reads;
  any other parameter in the URL is ignored by the page, and so is not modelled.
- SearchPage: a "show more" fetch that overlaps a new search still in flight is not
  modelled; each fetch is one atomic step. Restoring the text after a failed send
  (ConversationPage line 89) is UI state and is left out.
- MockApi.GetConversations: requires every conversation to have a message, because the
  sort reads each conversation's last message. Every conversation the store creates has
  one (`MockStore.Valid`). That the sort is stable for equal timestamps holds by
  construction, but no contract states it.
- The rendering of availability rows and panels is modelled as data (`Panel`, `DayRow`,
  `SlotView`), not as markup.

## Findings

| source | as written | input that shows it | evidently intended | confidence | as-written member | corrected member |
|---|---|---|---|---|---|---|
| pages/ConversationPage.tsx:35-54 | the page state is the conversation object `getConversationById` returns from the store (services/api.ts:297), and `addMessage` pushes the new message into that same object (services/api.ts:185) before the broadcast, so the duplicate test at line 51 always holds and the reducer returns `prev`, which React takes as "no change"; the append branch at line 54 never runs for a stored message, and the push's own update schedules no render. The message still appears with the next render something else causes; `currentUser` is parsed anew on every render (line 18) and is a dependency of the fetch effect (line 65), so that effect re-runs and re-fetches after each render, and the delay is short | student1 has conversation c1 open; two seconds after their message the tutor's auto-reply is pushed into c1's own `messages` and broadcast; the reducer returns `prev`, and the reply shows only when a later render happens, not through the push | the page keeps its own copy of the conversation, so a pushed message takes the append branch and its own update renders it | medium; not executed | ConversationPage.SharedConversationHidesPush | ConversationPage.CopiedConversationShowsPush |
