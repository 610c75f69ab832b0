# College schedule bot: the conversation and admin state machine in Dafny

This project models the core of a Telegram bot for a college, which lives in `index.js`. Students pick a group with a
button. They can then read their group's schedule and materials and the announcements. One administrator
logs in with `/admin`, a fixed name and a fixed password. After that, admin buttons let them:

- add and edit schedule entries;
- send a material (text, document, photo or video) to every student of a group;
- clear a group's materials;
- broadcast an announcement.

What is modelled:

- **State.** The four module-level flags (`adminMode`, `currentAdminChatId`, `waitingForMaterial`, `targetGroup`).
  The four MongoDB collections as in-memory sequences. The `message` listeners the handlers register at run time.
  An outbox: every `sendMessage`/`sendDocument`/`sendPhoto`/`sendVideo` call becomes one appended `Send`.
- **Parsers.** `replace('_changeGroup', '')` replaces the first occurrence only. `split('_')[2]` and the
  positional destructuring of `split(', ')` give absent fields when the input is short and drop extra fields.
  The substring test of the `onText` patterns. The material classification chain. The statistics aggregation.
  The newest-first announcement order.
- **Two layers.**
  - Module `Machine` gives each handler as a function from state and event to the next state.
  - Class `Handlers.Bot` holds the same state as fields. It has one method per handler that updates them in
    place. The `forEach` loops are `while` loops.
  - Every method is proved to produce exactly the state the matching `Machine` function gives. The properties
    are proved about the functions in modules `Properties` and `Findings`.

Event order is a modelling choice, following the library's dispatch:

1. Each event is handled to completion, one at a time.
2. For a message, every `message` listener runs first. These are the material handler (index.js:392), then the
   run-time listeners in registration order, over the list as it was when the message arrived.
3. Then every `onText` handler whose pattern occurs in the text runs, in registration order.
4. For a button press, both `callback_query` handlers run, in order.

Where this model and a plain reading of the bot's intent disagree, the model follows the code:

- The `bot.once('message')` prompts (index.js:309, 312, 340, 539, 550) take the next message from *any* chat. So
  a password typed in another chat completes the login of the chat that sent `/admin` (`PasswordFromAnyChat`).
- The first callback handler arms the material prompt for anyone, with no admin check (`MaterialButtonArms`).
- The announcement listener sends the announcement but never stores it in the Announcement collection. So
  `/announcements` lists only what the store already held.
- The first material and clear buttons carry a Latin `11T` (`Machine.MaterialButtons`, `Machine.ClearButtons`). See Findings.

## Model

| member | source | states |
|---|---|---|
| Strings.ReplaceFirst | index.js:230 | `replace` with a string pattern leaves a string without the pattern unchanged; otherwise it replaces the occurrence at the first position where the pattern occurs, and keeps the text before and after it |
| Strings.Split | index.js:255 | `split(sep)` always gives at least one piece, no piece contains the separator, and joining the pieces with the separator gives back the input |
| Strings.SplitJoin | index.js:341 | splitting pieces joined by a separator gives back the pieces, when none contains the separator |
| Parse.StripChangeGroupOf | index.js:229-230 | a group button's data `g_changeGroup` decodes to `g` for any group code without `_`; text after the first `_changeGroup` is kept |
| Parse.ThirdFieldOf | index.js:255 | `split('_')[2]` of `a_b_g` is `g` |
| Parse.ThirdFieldAbsent | index.js:254-255 | `split('_')[2]` of data with one underscore is absent |
| Parse.FieldsRoundTrip | index.js:341 | `split(', ')` recovers the fields an admin typed joined with `, ` |
| Parse.ScheduleFromFields | index.js:341-343 | schedule input fills group, day, time, subject and location by position; missing fields are absent, extra ones dropped |
| Parse.EditKeyFromFields | index.js:540 | the edit lookup key is the first two typed fields |
| Parse.RetimedFromFields | index.js:551-557 | the edit's second answer overwrites time, subject and location by position and keeps group and day |
| Materials.Classify | index.js:399-418 | text beats document, document beats photo, photo beats video; a photo uses the last size; a message with none of them is unsupported |
| Materials.MaterialOf | index.js:394-419 | the stored material has the target group, the text as description for text and `Нет описания` otherwise, and a file id exactly for files |
| Store.FindUser | index.js:79 | the lookup finds a binding of that user exactly when one exists |
| Store.Upsert | index.js:233 | after the upsert the user's binding has the new group, every other user's lookup is unchanged, and a new user adds exactly one record |
| Store.UniqueCountOne | index.js:233 | with one binding per user, a user who has a binding has exactly one |
| Store.UpsertKeepsUnique | index.js:233 | the upsert keeps at most one binding per user, and the changed user has exactly one |
| Store.UpsertIdempotent | index.js:233 | pressing the same group button twice equals pressing it once |
| Store.UpsertKeepsOthers | index.js:233 | every other user's record stays at its position |
| Store.SchedulesOf | index.js:91 | the query yields exactly the entries of the group |
| Store.FindSchedule | index.js:543 | the lookup returns the first entry with that group and day, or none when no entry has them |
| Store.MaterialsOf | index.js:139 | the query yields exactly the materials of the group |
| Store.LatestFirst | index.js:453 | newest first over materials stored in arrival order: position `k` holds the `k`-th most recently added material |
| Store.LatestFirstPermutation | index.js:453 | the newest-first listing holds exactly the stored materials |
| Store.ClearGroup | index.js:381 | `deleteMany` removes exactly the materials of the group and keeps every other |
| Aggregates.BelowTotal | index.js:594 | the group order of `$sort: { _id: 1 }` is total |
| Aggregates.BelowTransitive | index.js:594 | the group order is transitive |
| Aggregates.BelowIrreflexive | index.js:594 | the group order is strict |
| Aggregates.AddOneCorrect | index.js:592-593 | counting one more user raises that group's count by one, keeps the others, and keeps the list ascending |
| Aggregates.AddOneOrdered | index.js:592-593 | counting one more user keeps the rows strictly ascending by group and every count positive |
| Aggregates.AddOneCounts | index.js:592-593 | counting one more user raises that group's count by one and leaves every other group's count |
| Aggregates.GroupStatsCorrect | index.js:592-595 | the statistics list each group once, in ascending order, each with a positive count equal to its number of users |
| Aggregates.SortByDateDesc | index.js:264 | the listing is a permutation of the collection: every announcement appears as often as it is stored |
| Aggregates.SortIsNewestFirst | index.js:264 | the listing is newest first |
| Aggregates.SortStrictWhenDistinct | index.js:264 | with distinct dates the listing is strictly newest first |
| Delivery.Listing | index.js:153-160 | one send per material, in order, to the asking user: the file with its caption or the caption alone |
| Delivery.TitleListing | index.js:464-465 | one `title:` line per material, in order, to the asking chat |
| Delivery.Broadcast | index.js:511-514 | one announcement per user record |
| Delivery.FanOutDelivers | index.js:423-437 | a user receives the material's messages exactly when bound to the target group, otherwise nothing |
| Delivery.FanOutOnlyToGroup | index.js:423-437 | every material send goes to a user bound to the target group |
| Delivery.BroadcastDelivers | index.js:511-514 | every user with a binding receives the announcement exactly once, and nobody else does |
| Machine.Init | index.js:56-59 | at start-up admin mode is off, no admin chat, no material prompt and no listener, and the invariant holds |
| Machine.ViewSchedule | index.js:77-122 | an unbound sender gets the set-group reply; a bound one gets the not-found reply or the schedule of exactly its group; nothing else changes |
| Machine.ViewMaterials | index.js:125-162 | an unbound sender gets the set-group reply; a bound one gets the no-materials reply or one send per material of its group |
| Machine.ViewMaterialsNewest | index.js:446-475 | a chat without a binding or with an empty group gets the set-group reply; a bound one gets the no-materials reply or one title line per material of its group, newest first; nothing else changes |
| Machine.ListAnnouncements | index.js:263-273 | an empty collection gets the no-announcements reply; otherwise one digest holding every announcement, newest first |
| Machine.AdminCommand | index.js:306-309 | `/admin` asks for the name and arms the name prompt for that chat, from anyone; only the listeners, the id counter and the outbox change |
| Machine.AddSchedule | index.js:336-349 | outside the gate only the no-access reply; inside it, the prompt and one armed schedule listener, and nothing else changes |
| Machine.AddMaterial | index.js:352-367 | outside the gate only the no-access reply; inside it, the three material buttons with their data as written, and nothing armed |
| Machine.ClearMaterials | index.js:478-493 | outside the gate only the no-access reply; inside it, the three clear buttons with their data as written |
| Machine.AddAnnouncement | index.js:496-531 | outside the gate only the no-access reply; inside it, the prompt and one announcement listener, and nothing else changes |
| Machine.EditSchedule | index.js:535-565 | outside the gate only the no-access reply; inside it, the prompt and one lookup listener, and nothing else changes |
| Machine.Back | index.js:568-585 | from the admin chat admin mode and the admin chat are cleared and nothing else changes but the reply; from elsewhere only the no-access reply |
| Machine.Statistics | index.js:588-610 | outside the gate only the no-access reply; inside it, one message listing each group's user count, groups ascending |
| Machine.FireName | index.js:309-311 | the next message from any chat is taken as the name; the password prompt is armed for the `/admin` chat |
| Machine.FirePassword | index.js:312-331 | admin mode goes on for the `/admin` chat exactly when name and password are the fixed pair; otherwise neither flag changes and only the wrong-credentials reply is sent |
| Machine.FireScheduleAdd | index.js:340-345 | the typed entry is appended and confirmed; a message without text only spends the prompt |
| Machine.FireEditFind | index.js:539-549 | with no entry for the typed group and day only the not-found reply is sent and nothing is written; otherwise the second prompt is armed for the first such entry |
| Machine.FireEditFields | index.js:550-560 | only the found entry changes: time, subject and location from the answer, group and day kept |
| Machine.FireAnnouncement | index.js:502-525 | messages from other chats or with admin mode off change nothing; empty text gets a reply and the listener stays; otherwise confirmation, one announcement per user, and the listener goes |
| Machine.OnMaterial | index.js:392-443 | inactive it changes nothing; unsupported gets a reply and keeps the prompt and target; otherwise one material is stored for the target group, its users get it, the admin is told, and prompt and target are cleared |
| Machine.OnUserCallback | index.js:224-260 | `_changeGroup` upserts the sender's binding; `dnwmppk_group…` arms the prompt for the third field, with no admin check; the admin flags never change |
| Machine.OnAdminCallback | index.js:370-389 | outside the gate nothing changes at all; inside it, the target button arms the prompt and the clear button deletes exactly the group's materials |
| Properties.FireAllValid | index.js:392 | running the pending listeners on a message keeps the invariant |
| Properties.OnMessageValid | index.js:56-59 | every message keeps admin mode and admin chat set together, no target without a prompt, and well-formed listeners |
| Properties.OnCallbackValid | index.js:224-389 | every button press keeps the invariant |
| Properties.OnMessageKeepsUsers | index.js:233 | no message changes a user binding: only the group buttons write the User collection |
| Properties.OnCallbackKeepsUnique | index.js:233 | every button press keeps at most one binding per user |
| Properties.AdminOnlyByCredentials | index.js:312-317 | admin mode comes on during a message only when a pending password prompt holds the fixed name and the message's text is the fixed password |
| Properties.AdminOffOnlyByBack | index.js:568-572 | admin mode goes off during a message only when its text contains "Назад" |
| Properties.PasswordFromAnyChat | index.js:312-316 | the password may come from another chat and still makes the `/admin` chat the admin chat |
| Properties.GroupChange | index.js:229-234 | a group button binds the presser to the decoded group, keeps every other binding, and keeps one binding per user |
| Properties.MaterialButtonArms | index.js:254-256 | any material-target button arms the prompt for its third field, whoever presses it, and leaves the admin flags alone |
| Properties.MaterialDelivery | index.js:423-440 | after a stored material each user receives its messages exactly when bound to the target, and the admin chat gets one confirmation |
| Properties.AnnouncementDelivery | index.js:511-520 | after an accepted announcement the admin chat gets the confirmation and every user with a binding gets the announcement exactly once |
| Properties.EditFindFound | index.js:539-549 | a found group and day echo the entry and arm the field prompt for it; nothing else in the state changes |
| Properties.EditFindArms | index.js:539-549 | the answer "g, d" writes nothing and arms the field prompt for the first entry keyed (g, d) |
| Properties.EditFieldsWrite | index.js:550-557 | the answer "t, su, lo" overwrites time, subject and location of the pending entry; its group, its day and every other entry stay |
| Properties.EditFlow | index.js:539-557 | the two edit answers rewrite the first matching entry in place with the typed time, subject and location |
| Handlers.ScheduleReply | index.js:106-110 | the loop builds exactly the schedule reply: header, then each entry in order |
| Handlers.StatsReply | index.js:596-600 | the loop builds exactly the statistics message |
| Handlers.TitleSends | index.js:463-474 | the loop makes exactly the title listing |
| Handlers.ListingSends | index.js:153-160 | the loop makes exactly the material listing |
| Handlers.FanOutSends | index.js:423-437 | the loop makes exactly the material fan-out |
| Handlers.BroadcastSends | index.js:511-514 | the loop makes exactly the broadcast |
| Handlers.Bot.constructor | index.js:56-59 | the process starts in the initial state |
| Handlers.Bot.ViewScheduleHandler | index.js:77-122 | updates the object as `Machine.ViewSchedule` |
| Handlers.Bot.ViewMaterialsHandler | index.js:125-162 | updates the object as `Machine.ViewMaterials` |
| Handlers.Bot.ViewMaterialsNewestHandler | index.js:446-475 | updates the object as `Machine.ViewMaterialsNewest` |
| Handlers.Bot.AnnouncementsHandler | index.js:263-273 | updates the object as `Machine.ListAnnouncements` |
| Handlers.Bot.AdminHandler | index.js:306-309 | updates the object as `Machine.AdminCommand` |
| Handlers.Bot.AddScheduleHandler | index.js:336-349 | updates the object as `Machine.AddSchedule` |
| Handlers.Bot.AddMaterialHandler | index.js:352-367 | updates the object as `Machine.AddMaterial` |
| Handlers.Bot.ClearMaterialsHandler | index.js:478-493 | updates the object as `Machine.ClearMaterials` |
| Handlers.Bot.AddAnnouncementHandler | index.js:496-531 | updates the object as `Machine.AddAnnouncement` |
| Handlers.Bot.EditScheduleHandler | index.js:535-565 | updates the object as `Machine.EditSchedule` |
| Handlers.Bot.BackHandler | index.js:568-585 | updates the object as `Machine.Back` |
| Handlers.Bot.StatisticsHandler | index.js:588-610 | updates the object as `Machine.Statistics` |
| Handlers.Bot.NameListener | index.js:309-311 | updates the object as `Machine.FireName` |
| Handlers.Bot.PasswordListener | index.js:312-331 | updates the object as `Machine.FirePassword` |
| Handlers.Bot.ScheduleAddListener | index.js:340-345 | updates the object as `Machine.FireScheduleAdd` |
| Handlers.Bot.EditFindListener | index.js:539-549 | updates the object as `Machine.FireEditFind` |
| Handlers.Bot.EditFieldsListener | index.js:550-560 | overwrites the found record in place, as `Machine.FireEditFields` |
| Handlers.Bot.AnnouncementListener | index.js:502-525 | updates the object as `Machine.FireAnnouncement`, removing itself once it acts |
| Handlers.Bot.MaterialHandler | index.js:392-443 | updates the object as `Machine.OnMaterial` |
| Handlers.Bot.HandleMessage | index.js:392 | the material handler, the pending listeners in order, then the text handlers, as `Machine.OnMessage`; keeps the invariant |
| Handlers.Bot.FireSnapshot | index.js:309-560 | fires the listeners registered when the message arrived, in order, as `Machine.FireAll` |
| Handlers.Bot.TextHandlers | index.js:306 | runs every handler whose pattern occurs in the text, in registration order |
| Handlers.Bot.UserCallbackHandler | index.js:224-260 | updates the object as `Machine.OnUserCallback` |
| Handlers.Bot.AdminCallbackHandler | index.js:370-389 | updates the object as `Machine.OnAdminCallback` |
| Handlers.Bot.HandleCallback | index.js:224 | both callback handlers in order, as `Machine.OnCallback`; keeps the invariant |
| Findings.GroupButtonBinds | index.js:216-218 | each group button binds the Cyrillic group code on its label |
| Findings.WrittenMaterialTarget | index.js:358 | as written, the first material button targets the Latin `11T` |
| Findings.WrittenClearTarget | index.js:484 | as written, the first clear button targets the Latin `11T` |
| Findings.NoGroupIsLatin | index.js:216-218 | no group button binds `11T` |
| Findings.WrittenButtonUserMissesMaterial | index.js:358 | as written, after the admin asks to add a material, presses the first button offered and sends a material, a student who chose 11Т receives nothing of it |
| Findings.WrittenClearKeepsGroup | index.js:484 | as written, after the admin asks to clear materials and presses the first button offered, every material of group 11Т is still stored |
| Findings.MaterialButtonMatches | index.js:358-360 | corrected, each material button targets the group its group button binds |
| Findings.ClearButtonMatches | index.js:484-486 | corrected, each clear button targets the group its group button binds |
| Findings.ButtonUserGetsMaterial | index.js:358-360 | corrected, a student who chose group `i` receives the whole material sent after corrected material button `i` |
| Findings.ClearRemovesGroup | index.js:484-486 | corrected, clear button `i` deletes exactly the materials of group `i` |

## Left out

- Telegram transport. Polling, keyboards other than the material and clear buttons, `resize_keyboard`, and the
  HTML and Markdown parse modes are not modelled. A send is only its recipient and payload.
- The static handlers are not modelled: `/start`, `/menu`, "Полезные источники", "Изменить группу", "Наши ресурсы"
  and "Помощь" (index.js:62-74, 165-220, 276-303). They change no state. The group buttons' callback data are kept
  as `Machine.GroupButtons`.
- `Machine.ViewMaterialsNewest` (index.js:446-475) branches on `material.type`, which the Material schema
  (index.js:29-36) does not declare, so Mongoose does not store it. The model takes it as always absent: every
  material gets its `title:` line and nothing more. Both "Посмотреть материалы" registrations run on that text.
- `Store.LatestFirst`: `sort({ date: -1 })` is taken as reverse store order, because each material gets
  `Date.now` when it is stored. Materials stored in the same millisecond may come back in another order.
- `Machine.Statistics` models the body of the statistics handler (index.js:588-610). The handler is registered
  inside the "Назад" handler (index.js:588), once per "Назад" press. That registration is not modelled, so
  "Просмотреть статистику" is not in `Machine.Router`.
- MongoDB is not modelled: the connection, schemas, `_id`s and the aggregation engine. Every failure branch of a
  query is left out, and so are the unhandled rejections (index.js:235-238, 383-386, 515-518, 602-606). Store
  calls always succeed.
- `Store.FindSchedule` matches an absent group or day only against an absent field. Mongoose drops a filter key
  whose value is `undefined`, so the code's lookup with a missing field matches any entry on that key
  (index.js:543). Likewise `Delivery.FanOut` with no target group (button data `dnwmppk_group`, index.js:255)
  sends to nobody, while `User.find({ group: undefined })` (index.js:423) would reach every user.
- The User schema stores `userId` as a String. The model keeps chat and user ids as integers throughout.
- Date rendering is not modelled (`toLocaleString`, `Date.now` defaults; index.js:271). Announcement dates are
  abstract ordered integers. The digest payload carries the sorted announcements, not their rendered text.
- The Material fields `subject` and `date` (index.js:30, 35) are not modelled. The handlers of this model
  neither write nor read them; only the second listing handler above sorts by `date`.
- Async interleaving at `await` points is not modelled. Each event runs to completion. The announcement
  broadcast, which the code starts without waiting and which sends after the confirmation, is modelled as
  appended right after the confirmation.
- A photo message with an empty size list makes the material handler throw (index.js:410). The model stores and
  sends nothing then.
- A prompt that receives a message without text throws at `split` (index.js:341, 540, 551). The model spends
  the prompt and does nothing else.
- Unused imports and environment loading (index.js:1-13) are not modelled.

## Findings

| source | as written | input that shows it | evidently intended | confidence | as-written member | corrected member |
|---|---|---|---|---|---|---|
| index.js:358 | the first material button's data is `dnwmppk_group_11T` with a Latin T, while the group button stores the Cyrillic `11Т` (index.js:216) | a student presses the group button 11Т; the admin presses material button 11Т and sends a text | the material reaches every student of group 11Т | high (not executed) | Findings.WrittenButtonUserMissesMaterial | Findings.ButtonUserGetsMaterial |
| index.js:484 | the first clear button's data is `clear_group_11T` with a Latin T | materials stored for group 11Т; the admin presses clear button 11Т | every material of group 11Т is deleted | high (not executed) | Findings.WrittenClearKeepsGroup | Findings.ClearRemovesGroup |
