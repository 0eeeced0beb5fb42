# Founder dashboard: handler logic in Dafny

This project models the logic inside the event handlers of a small React dashboard
for early-stage founders. The rendering is left out. What is modelled:

- the chat session of the Dashboard view: the blank-input guard, the user message, the
  history handed to the generation backend, the placeholder reply that streamed chunks
  are folded into by id, and the fallback message on failure (`chat.dfy`);
- the task tracker: add (prepend), toggle by id, delete by id, the All/Active/Done
  filter and the priority colours (`task_list.dfy`);
- the per-user key-value store over `localStorage`. Its keys are `sessionUser`,
  `profile_<email>`, `tasks_<email>` and `posts_<email>` (`storage.dfy`);
- the community feed: the merge on mount, posting and liking (`community.dfy`);
- the profile editor: the form defaults, the interest toggle and saving (`profile.dfy`);
- the sign-in form: login or sign-up record construction, and saving the record
  (`auth.dfy`);
- the news category filter of the right-hand panel (`news.dfy`).

The records of `types.ts` are datatypes in `types.dfy`. JavaScript's `trim`, used by
every blank-input guard, is in `text.dfy`. `Array.prototype.filter` and the facts about
it are in `seqs.dfy`.

Stateful parts are classes whose methods are proved against pure functions:

- `Storage.Store` holds `entries: map<string, Value>`. Its invariant says that each
  namespaced key holds a record of its namespace's type. It also says that
  `profile_<e>` holds a user whose email is `e`.
- Each view (`ChatSession`, `TasksView`, `CommunityView`, `ProfileEditor`, `AuthForm`)
  holds its React state as fields. Every view except `ChatSession`, which does not touch
  storage, also holds a reference to the one shared store.
- The callbacks `onLogin` and `onUpdate` are modelled as the methods' return values.

The streamed reply is an input, `Stream(chunks, fails)`. `chunks` are the chunks
received, in order; a chunk's text may be absent. `fails` says whether the stream
threw after them. If no client is configured, the call throws before any chunk
arrives. That case is `Stream([], true)`.

Two behaviours of the chat code that the model keeps as written:

- The empty placeholder reply is appended (components/Dashboard.tsx:50) before the
  streaming call is made (components/Dashboard.tsx:52).
- The update for a chunk (components/Dashboard.tsx:59-61) rewrites every message whose
  id equals the placeholder's id, not only the placeholder. The lemmas that promise
  "earlier messages unchanged" say so for messages with a different id.

## Model

| member | source | states |
|---|---|---|
| Text.TrimEmptyIffBlank | components/Dashboard.tsx:28 | `text.trim()` is empty exactly when every character is ECMAScript whitespace, the blank-input guard of the model |
| Text.Trim | components/Dashboard.tsx:28 | `trim()` gives a string no longer than its input that is empty or has non-whitespace at both ends; with `TrimStart` and `TrimEnd` the removed parts are whitespace |
| Text.IsBlank | components/Tasks.tsx:21 | no contract of its own: the guard `!s.trim()` of every handler; `TrimEmptyIffBlank` proves it holds exactly when `trim()` is empty |
| Text.TrimStart | components/Dashboard.tsx:28 | the result is a suffix that starts with a non-whitespace character or is empty, and what was removed is all whitespace |
| Text.TrimEnd | components/Dashboard.tsx:28 | the result is a prefix that ends with a non-whitespace character or is empty, and what was removed is all whitespace |
| Text.BeforeFirst | components/Auth.tsx:24 | the result is the prefix of the string up to the first separator, or the whole string when it has no separator |
| Seqs.Filter | components/Tasks.tsx:42 | `filter` never lengthens a list; what it keeps is characterised by `FilterMembers`, `FilterIsSubsequence` and `FilterPartition` |
| Seqs.FilterMembers | components/Tasks.tsx:42 | `filter` keeps exactly the elements that satisfy the predicate |
| Seqs.FilterIsSubsequence | components/Tasks.tsx:47-51 | `filter` keeps the order of the elements it keeps |
| Seqs.FilterKeepsAll | components/Tasks.tsx:42 | a filter whose predicate holds everywhere returns the list unchanged |
| Seqs.FilterAppend | components/Profile.tsx:27 | filtering a concatenation is the concatenation of the filtered parts |
| Seqs.FilterPartition | components/Tasks.tsx:47-51 | a predicate and its complement split a list into two parts that together hold every element exactly once |
| Seqs.FilterNoDuplicates | components/Profile.tsx:27 | filtering a list without duplicates gives a list without duplicates |
| Storage.KeysDistinct | services/storageService.ts:3-33 | the `profile_`, `tasks_` and `posts_` keys never coincide across namespaces, and within one namespace equal keys mean equal emails |
| Storage.SessionUser | services/storageService.ts:9-11 | the session user is absent exactly when `sessionUser` is absent, and otherwise is the stored record |
| Storage.StoredProfile | components/Auth.tsx:23 | `profile_<email>` is absent or holds a user whose email is `email` |
| Storage.TasksOf | services/storageService.ts:17-20 | the tasks stored for an email, or `[]` when that email was never written |
| Storage.PostsOf | services/storageService.ts:26-29 | the posts stored for an email, or `[]` when that email was never written |
| Storage.WithUser | services/storageService.ts:3-6 | saving a user writes exactly `sessionUser` and `profile_<email>` and keeps the store well typed |
| Storage.WithoutSession | services/storageService.ts:13-15 | logging out removes exactly the `sessionUser` key |
| Storage.WithTasks | services/storageService.ts:22-24 | saving tasks writes exactly `tasks_<email>` |
| Storage.WithPosts | services/storageService.ts:31-33 | saving posts writes exactly `posts_<email>` |
| Storage.SaveUserThenRead | services/storageService.ts:3-11 | after `saveUser(u)` the session user is `u` and `profile_<u.email>` is `u`; other profiles and all task and post lists are unchanged |
| Storage.LogoutThenRead | services/storageService.ts:9-15 | after logout the session user is null; every profile, task list and post list is unchanged |
| Storage.SaveTasksThenRead | services/storageService.ts:17-24 | a save of tasks then a read returns them; other emails' tasks, all posts, all profiles and the session are unchanged |
| Storage.SavePostsThenRead | services/storageService.ts:26-33 | a save of posts then a read returns them; other emails' posts, all tasks, all profiles and the session are unchanged |
| Storage.Store.SaveUser | services/storageService.ts:3-6 | the two writes in sequence give `WithUser` of the old entries and keep the invariant |
| Storage.Store.GetSessionUser | services/storageService.ts:9-11 | returns null exactly when `sessionUser` is absent |
| Storage.Store.LogoutUser | services/storageService.ts:13-15 | the new entries are the old ones without `sessionUser` |
| Storage.Store.GetStoredProfile | components/Auth.tsx:23 | the direct read of `profile_<email>` |
| Storage.Store.GetUserTasks | services/storageService.ts:17-20 | returns the stored tasks, or `[]` if the key is absent |
| Storage.Store.SaveUserTasks | services/storageService.ts:22-24 | the new entries are `WithTasks` of the old ones |
| Storage.Store.GetUserPosts | services/storageService.ts:26-29 | returns the stored posts, or `[]` if the key is absent |
| Storage.Store.SaveUserPosts | services/storageService.ts:31-33 | the new entries are `WithPosts` of the old ones |
| Chat.Greeting | components/Dashboard.tsx:13-15 | the opening message has id `1`, role model and the given time |
| Chat.History | components/Dashboard.tsx:43-46 | the backend history has one entry per message, in order, with the same role and the text as a single part |
| Chat.Accumulated | components/Dashboard.tsx:54-62 | no contract of its own: `fullText` after the chunks; `AccumulatedStep` fixes it for every input, one chunk at a time |
| Chat.AccumulatedStep | components/Dashboard.tsx:57-58 | the full text after one more chunk is the full text before it followed by that chunk's text (empty when absent) |
| Chat.Updates | components/Dashboard.tsx:54-62 | no contract of its own: the texts published by the loop; `UpdatesStep` fixes it for every input, one chunk at a time |
| Chat.UpdatesStep | components/Dashboard.tsx:57-61 | one more chunk publishes one more text exactly when its text is non-empty, and that text is the full text so far |
| Chat.Streamed | components/Dashboard.tsx:54-62 | folding the chunks keeps the length of the log and leaves every message with another id unchanged; `StreamedStep` ties it to one update per chunk |
| Chat.AfterSend | components/Dashboard.tsx:27-76 | a blank input leaves the log as it was; any other adds two messages, or three on failure |
| Chat.Sent | components/Dashboard.tsx:30-72 | a non-blank send adds two messages, or three on failure with the fallback last; old messages with another id than the reply are unchanged |
| Chat.WithText | components/Dashboard.tsx:59-61 | the update by id keeps the length; it sets the text of the messages with that id and leaves every other message unchanged |
| Chat.AccumulatedEmpty | components/Dashboard.tsx:54-62 | the accumulated text is empty exactly when no chunk carried text |
| Chat.StreamedStep | components/Dashboard.tsx:54-62 | a chunk with text sets the placeholder to the full text so far; a chunk with empty or absent text changes nothing |
| Chat.WithTextTwice | components/Dashboard.tsx:59-61 | two updates of the same id leave only the second text |
| Chat.UpdatesGrow | components/Dashboard.tsx:54-62 | each published text extends the previous one; the last is the whole text; nothing is published when no chunk had text |
| Chat.StreamExample | components/Dashboard.tsx:54-62 | chunks "Hel", "lo", " world" publish "Hel", "Hello", "Hello world"; chunks with empty or absent text publish nothing |
| Chat.HistoryExample | components/Dashboard.tsx:43-46 | a log of `[{user,"a"},{model,"b"}]` becomes exactly those two history entries |
| Chat.BlankSendIsNoOp | components/Dashboard.tsx:28 | an input whose `trim()` is empty leaves the log unchanged |
| Chat.StreamedFresh | components/Dashboard.tsx:59-61 | folding chunks into an id that no earlier message has leaves those earlier messages untouched |
| Chat.StreamedPair | components/Dashboard.tsx:49-61 | folding into the fresh pair [user message, placeholder] gives the user message and a reply holding all streamed text |
| Chat.SendAppends | components/Dashboard.tsx:27-76 | with a reply id that no earlier message has, the new log is the old one followed by exactly the untrimmed user message, the reply holding all streamed text, and on failure the fallback message |
| Chat.SendShape | components/Dashboard.tsx:30-72 | whenever the user id differs from the reply id (the reply id is a later `Date.now() + 1`), a send adds two messages, or three on failure: the user message, the reply holding all streamed text, then the fallback; old messages with another id are unchanged |
| Chat.EarlyFailureLeavesEmptyPlaceholder | components/Dashboard.tsx:49-72 | a failure before any chunk leaves an empty placeholder followed by the fallback text |
| Chat.ChatSession.constructor | components/Dashboard.tsx:12-16 | a session starts with the greeting, an empty input and no typing indicator |
| Chat.ChatSession.FoldStream | components/Dashboard.tsx:54-63 | after the loop, the log is `Streamed` of the old one and the published texts are `Updates` of the chunks; the input is unchanged; it may only run while the typing indicator is on, which it leaves on |
| Chat.ChatSession.Send | components/Dashboard.tsx:27-76 | the new log is `AfterSend` of the old one; the request is absent for a blank input and otherwise carries the pre-send history; the published texts are `Updates`; the input is cleared; the typing indicator is on while the chunks are folded (the precondition of `FoldStream`) and off at the end |
| Chat.ChatSession.SendInput | components/Dashboard.tsx:27-76 | called without an argument, a send uses the input box's text: the log becomes `AfterSend` of it; the request, the published texts, the cleared input and the typing indicator off at the end are as for `Send` |
| TaskList.NewTask | components/Tasks.tsx:22-28 | a new task is open and has the entered title and priority |
| TaskList.Toggled | components/Tasks.tsx:36 | the length and order are kept, `completed` flips on the tasks with the id, and nothing else changes |
| TaskList.Deleted | components/Tasks.tsx:42 | no task with the id is left; `DeleteRemovesOnlyId` pins the result down exactly |
| TaskList.ToggleTwice | components/Tasks.tsx:36 | toggling the same id twice restores the list |
| TaskList.DeleteRemovesOnlyId | components/Tasks.tsx:42 | no task with the id remains; every other task remains, in order, with all its copies (the result and the removed tasks together are the list as a multiset); deleting an absent id changes nothing |
| TaskList.Filtered | components/Tasks.tsx:47-51 | All shows the list; Active shows only open tasks; Done shows only completed ones; `FilterPartitions` pins each down exactly |
| TaskList.FilterPartitions | components/Tasks.tsx:47-51 | All is the list; Active is exactly the open tasks and Done exactly the completed ones, each in order; together they form the list |
| TaskList.ColoursDistinct | components/Tasks.tsx:53-57 | the red, amber and green class strings are distinct |
| TaskList.PriorityColor | components/Tasks.tsx:53-57 | red exactly for High, amber exactly for Medium, green for every other value |
| TaskList.PriorityColorOfLabel | components/Tasks.tsx:53-57 | a task's priority, stored as its label, gets red for High, amber for Medium and green for Low |
| TaskList.TasksView.constructor | components/Tasks.tsx:11-18 | mounting loads the user's stored tasks with filter All and priority Medium |
| TaskList.TasksView.AddTask | components/Tasks.tsx:20-33 | a blank title changes nothing; otherwise the new task is prepended to the list, the list is saved under `tasks_<email>` and the title is cleared |
| TaskList.TasksView.ToggleTask | components/Tasks.tsx:35-39 | the list becomes `Toggled` and the stored list equals it |
| TaskList.TasksView.DeleteTask | components/Tasks.tsx:41-45 | the list becomes `Deleted` and the stored list equals it |
| Community.MountFeed | components/Community.tsx:14-30 | the feed is the stored posts followed by `d1` and `d2` |
| Community.NewPost | components/Community.tsx:35-42 | a new post has the user's name as author, tags `['General']`, 0 likes and timestamp "Just now" |
| Community.Liked | components/Community.tsx:54 | the length is kept, `likes` rises by exactly 1 on the posts with the id, and nothing else changes |
| Community.LikeAbsentIsNoOp | components/Community.tsx:54 | liking an absent id changes nothing |
| Community.PostThenRemount | components/Community.tsx:26-49 | after a post is saved, the feed rebuilt on mount is the post followed by the old feed |
| Community.CommunityView.constructor | components/Community.tsx:26-30 | mounting shows `MountFeed` of the stored posts |
| Community.CommunityView.SubmitPost | components/Community.tsx:32-51 | blank content changes nothing; otherwise the post is prepended to the re-read stored list, that list is saved, and the post is prepended to the view |
| Community.CommunityView.Like | components/Community.tsx:53-55 | only the view changes (`Liked`); the store is outside the method's frame, so nothing is persisted |
| Profile.InitialBio | components/Profile.tsx:13 | a missing bio defaults to the empty string |
| Profile.InitialInterests | components/Profile.tsx:14 | missing interests default to the empty list |
| Profile.ToggledInterest | components/Profile.tsx:25-31 | the interest's membership flips, no other interest's membership changes, a present interest's removal keeps every copy of the others in order, and an absent interest is appended at the end |
| Profile.Saved | components/Profile.tsx:19 | the saved record takes name, bio and interests from the form, and email and avatar from the original user |
| Profile.ToggleAbsentTwice | components/Profile.tsx:25-31 | toggling an absent interest twice restores the list |
| Profile.ToggleKeepsNoDuplicates | components/Profile.tsx:25-31 | a list without duplicates stays without duplicates |
| Profile.ProfileEditor.constructor | components/Profile.tsx:11-14 | the form opens with the user's name, bio and interests, with absent fields defaulted |
| Profile.ProfileEditor.ToggleInterest | components/Profile.tsx:25-31 | the interests become `ToggledInterest` of the old ones |
| Profile.ProfileEditor.Save | components/Profile.tsx:18-23 | the returned record (the `onUpdate` argument) is `Saved`, and it is now both the session user and the stored profile |
| Auth.DefaultName | components/Auth.tsx:24 | the default name is the part of the email before the first `@`, or the whole email when it has none |
| Auth.LoginUser | components/Auth.tsx:23-24 | a login returns the stored profile unchanged, or `{name: DefaultName(email), email}` |
| Auth.SignUpUser | components/Auth.tsx:28 | a sign-up record has only a name and an email |
| Auth.SubmittedUser | components/Auth.tsx:16-31 | the submitted record depends on the mode, email, name and store but not on the password, and its email is the entered email |
| Auth.LoginRecoversSavedProfile | components/Auth.tsx:23-26 | logging in after a profile was saved returns exactly that profile; without a stored profile the name defaults from the email |
| Auth.SignUpOverwritesProfile | components/Auth.tsx:27-30 | a sign-up replaces `profile_<email>` with a record that has no bio and no interests |
| Auth.AuthForm.constructor | components/Auth.tsx:10-14 | the form starts in login mode with empty fields |
| Auth.AuthForm.Submit | components/Auth.tsx:16-32 | the returned record (the `onLogin` argument) is `SubmittedUser`, and it becomes both the session user and `profile_<email>` |
| News.FilteredNews | components/RightPanel.tsx:32-34 | every shown item is one of the news items, and under a chip other than All it has that category; `FilterMatchesCategory` pins the result down exactly |
| News.FilterMatchesCategory | components/RightPanel.tsx:32-34 | All shows every item; another category shows exactly the matching items; the result is always a subsequence of the news |
| News.OnlyOwnCategory | components/RightPanel.tsx:32-34 | a chip other than All never shows an item of another category |
| News.LocalOnlyUnderAll | components/RightPanel.tsx:10-34 | the Local item is shown under All and under no other chip |

## Left out

- The generation backend client and its streaming call (services/geminiService.ts) are
  a wrapper over a vendor library. Only the outcome of the call is modelled, as the
  `Stream` input. A missing API key is a stream that fails before any chunk arrives.
- Asynchrony is left out: the suspension at each chunk, React's state batching and
  overlapping sends. One send runs at a time, and its history is taken from the log
  before that send.
- `Date.now()` ids and timestamps, `toLocaleDateString` due dates, and the `console.error`
  call are left out. Ids and times are parameters, and no uniqueness is assumed.
- `JSON.stringify` and `JSON.parse` are treated as the identity. The store holds typed
  records. The store's initial contents are assumed to be well typed, that is, written
  by this application.
- Rendering, scrolling, CSS, the recharts chart and the `alert` after a profile save are
  left out.
- Page routing and the menu (App.tsx, components/Sidebar.tsx) are not part of this
  model. Their storage calls go through the modelled `getSessionUser` and `logoutUser`.
- `likes` is an unbounded integer, not a floating-point JavaScript number.
- Task priority is one of the three declared values. `PriorityColor` still accepts any
  string, as `getPriorityColor` does.
