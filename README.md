# Loop–YouGile task bot, modelled in Dafny

The bot sits in a Loop (Mattermost) workspace and creates YouGile tasks
through a short conversation. A user writes `@bot создай задачу <title>`,
or opens the bot's menu. The bot then asks in the thread, one post at a
time, for the project, the board, the column, the assignee and the
deadline. It creates the YouGile task with those choices. Afterwards it relays
messages typed in the thread to the YouGile task's chat, until the user presses
"finish" or the dialog has been idle too long.

The model covers the core of the bot in `app.py`:

- **Text handling** (`text.dfy`, `command.dfy`, `slug.dfy`): Python's
  whitespace, `strip`, `lower`, the command parser and the project slug
  used in task links.
- **Dates** (`calendar.dfy`, `deadline.dfy`): proleptic Gregorian dates
  with Python's `toordinal`, `strptime("%Y-%m-%d")` and
  `strftime("%d.%m.%Y")`. Also `calc_deadline`, `format_deadline` and the
  task body with its noon-UTC deadline instant.
- **Payloads and access** (`payload.dfy`, `access.dfy`): reading a
  selection out of a button callback, and the option lists of the prompts.
  Also the e-mail match that decides which projects a user may pick.
- **State** (`dialogs.dfy`, `channels.dfy`): the dialog store keyed by
  (user, root post) with its `set_state` merge and time stamps, and the
  per-channel default project. Both are classes whose methods update
  their maps in place.
- **The state machine** (`machine.dfy`, `wizard.dfy`, `sweeper.dfy`,
  `listener.dfy`): a value `World`. It holds the dialogs, the channel
  defaults and the calls made to Loop and YouGile, in order. Every step of
  `mm_actions`, `start_task_creation`, `create_task_and_update_post`,
  `auto_finish_dialog`, the cleanup loop and the websocket's `posted`
  handling is a function from a world to a world. A `Run` carries an `ok`
  flag, which is false where the source raises.
- **The bot object** (`bot.dfy`): `LoopBot.Bot` owns a `DialogStore` and a
  `ChannelDefaults` and records its calls. Each handler method is proved to
  leave exactly the world the matching function describes. The loops
  (deleting service posts, scanning members, filtering projects, the
  sweep) stay loops with invariants.
- **Properties** (`wizard_facts.dfy`, `flow_facts.dfy`,
  `session_facts.dfy`): what each step stores, when it fails and which
  calls it makes. Each step is confined to the dialogs of the user who
  acted. Only the default-project steps touch channel defaults, and every
  stored default has a title. Cancelling deletes exactly the recorded
  service posts. The sweep closes exactly the due dialogs.

Everything Loop and YouGile answer is an input, bundled in a `Remote`
record. This covers the boards, columns and members listed, the id of a
post just made, the YouGile task created and the user's e-mail. A listing that
raises is `None`. The current time `now` and today's date `today` are
parameters too.

Some behaviours of the code worth stating outright:

- A project without boards, or a board without columns, gets a notice and
  the dialog stays where it is (app.py:1393-1399, app.py:1467-1474).
- A typed date is read with `strptime("%Y-%m-%d")`, which also accepts
  one-digit months and days (`2025-1-5`). `Calendar.ParseIsoDate` accepts
  those too, for ASCII digits.
- An unreadable typed date gets a notice and the dialog keeps waiting.
- A task creation that fails after a button press (app.py:1689-1694) posts
  the handler's generic error notice and leaves the dialog in its last
  state.
- A creation that fails after a typed date (app.py:2141) posts no notice.
  The exception reaches the websocket loop's outer handler
  (app.py:2239-2241), which only logs it, waits and reconnects. The
  listener keeps the world up to the failure and adds nothing.

## Model

| member | source | states |
|---|---|---|
| Text.Lower | app.py:583 | lower-casing maps A–Z to a–z, changes nothing but the Latin and Cyrillic capitals, and never turns a character into whitespace or whitespace into anything else |
| Text.LowerStr | app.py:2095 | `lower()` keeps the length and lower-cases each character in place |
| Text.TrimStart | app.py:352-353 | the result is a suffix of the input that starts with a non-space; everything dropped is whitespace |
| Text.Strip | app.py:346 | the result has no whitespace at either end, is no longer than the input and takes no character the input lacks; a stripped text is left as it is |
| Text.StripParts | app.py:346 | any text is its stripped form between two runs of whitespace |
| Command.RemoveMentions | app.py:348-349 | removing `@bot` never lengthens the text and leaves a text without the mention unchanged |
| Command.MentionShrinks | app.py:348-349 | a text holding the mention in any letter case gets strictly shorter |
| Command.MatchCreate | app.py:352-356 | the regular expression's title is never empty, has no surrounding whitespace and is one line |
| Command.MatchShape | app.py:352-356 | every stripped text of the command's shape is accepted with the title after the second whitespace run. The shape is `создай` and `задачу` in any letter case, each followed by a whitespace run of any length and kind (spaces, tabs, newlines), then a one-line title |
| Command.Normalize | app.py:346-349 | the text the parser matches is stripped and no longer than the message |
| Command.ParseCreateCommand | app.py:339-356 | any accepted title is non-empty, stripped and single-line |
| Command.ParseCanonicalCommand | app.py:339-356 | `@bot создай задачу <t>` gives back exactly `t` for every stripped one-line `t` without the mention |
| Command.ParseCreateShape | app.py:339-356 | conversely, an accepted message reads, once normalised, `создай`, whitespace, `задачу`, whitespace, then exactly the returned title: the command's shape with whole whitespace runs |
| Command.ParseCreateIff | app.py:339-356 | the parser returns `t` exactly when the normalised message has the command's shape with `t` after the second whitespace run |
| Command.CanonicalCommandMentionsBot | app.py:2095 | the canonical command passes the listener's mention test, so it reaches the parser |
| Slug.ReplaceSpaceRuns | app.py:45 | after replacing whitespace runs with hyphens no whitespace is left and every other character is kept in order |
| Slug.ReplaceSpaceRunsSplit | app.py:45 | a whitespace run between two other characters becomes exactly one hyphen, and the texts on either side are rewritten on their own |
| Slug.ReplaceSpaceRunsNoSpace | app.py:45 | a text without whitespace is left as it is |
| Slug.CollapseHyphens | app.py:46 | after collapsing hyphen runs no two hyphens are adjacent; the text is empty exactly when the input was, and keeps its first character |
| Slug.CollapseSplit | app.py:46 | a hyphen run between two other characters becomes exactly one hyphen, and the texts on either side are collapsed on their own |
| Slug.CollapseSkeleton | app.py:46 | collapsing hyphen runs keeps every character other than whitespace and hyphens, in order |
| Slug.CollapseIdentity | app.py:46 | a text without a double hyphen is left as it is |
| Slug.SlugifyTitle | app.py:37-47 | a slug has no whitespace and no double hyphen and keeps the title's other characters in order (none for a missing title) |
| Slug.SlugifyIdempotent | app.py:37-47 | slugifying a slug changes nothing |
| Slug.SlugifyJoin | app.py:37-47 | two titles joined by whitespace slugify to their two slugs joined by one hyphen, so `Мой проект` becomes `Мой-проект` |
| Calendar.AddDays | app.py:643-655 | adding days to a valid date gives a valid date |
| Calendar.AddDaysOrdinal | app.py:643-655 | adding `n` days adds exactly `n` to the day number, which is how Python's `timedelta` moves a date |
| Calendar.OrdinalInjective | app.py:643-655 | two valid dates with the same day number are the same date |
| Calendar.ParseIsoDate | app.py:2119 | every date `strptime` accepts exists: year 0, month 13 and 31 April are refused |
| Calendar.ParseIsoString | app.py:2119 | every valid date written `YYYY-MM-DD` is read back as itself |
| Calendar.DottedString | app.py:681 | `DD.MM.YYYY` with a four-digit, zero-padded year is always ten characters |
| Calendar.DottedStringInjective | app.py:681-686 | two different dates are never rendered alike |
| Calendar.NoonUtcMsIsNoon | app.py:456-465 | the deadline instant is noon UTC of the chosen day: half a day past a whole day, on that day's number since 1970-01-01 |
| Calendar.NoonUtcMsFaithful | app.py:456-465 | different dates give different instants, and `n` days later is `n` days of milliseconds later |
| Calendar.EpochNoon | app.py:456-465 | a check of the epoch constant on two fixed instants, not a general law: 1970-01-01 gives 43 200 000 ms, and 2025-11-13 (the prompt's example date) gives 1 763 035 200 000 ms |
| Deadline.Shift | app.py:643-655 | moving a date by `n` days lands `n` day numbers on, and fails exactly past 9999-12-31 |
| Deadline.CalcDeadline | app.py:637-655 | the lower-cased choice picks 0, 1, 2, 7 or 30 days after today, anything else today; the date fails only past the calendar's end |
| Deadline.CalcDeadlineUnique | app.py:637-655 | conversely, the one date that many days on is the deadline, so the choice fixes the date |
| Deadline.FormatDeadline | app.py:657-691 | the lower-cased choice picks its label: "Без дедлайна", "Сегодня", "Завтра", "Послезавтра", "Через неделю" or "Через месяц". "custom" with typed text shows exactly that text. Any other choice shows the date as `DD.MM.YYYY`, or "без дедлайна" without one. The label is never empty. With a date, the summary text is the label followed by the date in parentheses; without one it is the label |
| Deadline.FormatDeadlineNamesDate | app.py:657-691 | two summary texts that read alike name the same date |
| Deadline.TaskBodyFor | app.py:445-469 | the YouGile task body carries the title, column and description; it has an assignee list exactly for a non-empty assignee id, and a deadline exactly for a date, at noon UTC without a time |
| Payload.ExtractSelectedValue | app.py:358-371 | the context's selection wins when truthy, else the data's; a string is taken as it is, an object gives its `value`; a non-empty result comes from a truthy selection |
| Payload.PromptChoices | app.py:765-778 | the prompt offers exactly the listed entities that have an id, and nothing else; one entity gives its own option, or none without an id |
| Payload.PromptChoicesAppend | app.py:769-778 | the options of two lists in a row are those of the first followed by those of the second, so the options keep the list's order and repetitions |
| Payload.OptionTitles | app.py:1421 | the option dictionary's keys are exactly the listed ids, and a repeated id keeps the title of its last entity |
| Payload.OptionIds | app.py:1141-1145 | the dictionary's keys are exactly the listed ids, each once |
| Payload.OptionIdsFirstOrder | app.py:1141-1145 | the keys come in insertion order: an id whose first entity comes earlier is listed earlier |
| Payload.DictChoices | app.py:1161-1167 | one option per dictionary entry, in key order, with that entry's title |
| Payload.DictChoicesExact | app.py:1161-1167 | an option is offered exactly when it is an entry of the dictionary |
| Payload.DefaultProjectChoices | app.py:1161-1167 | the default-project select holds every project option, in the dictionary's order, plus the "no default" option. That option is last from the menu and first in the join prompt |
| Payload.MemberLabel | app.py:881 | a member is labelled by a non-empty real name, else by the e-mail it has, else "Без имени" |
| Payload.AssigneeChoices | app.py:877-885 | the assignee select exists exactly when every member has an id, and then holds one option per member, in order |
| Access.NormalEmail | app.py:583 | the normalised e-mail is never longer than the one given |
| Access.EmailIndexKeys | app.py:598-603 | the e-mail index lists exactly the accounts with an id and an e-mail, never with an empty e-mail |
| Access.EmailIndexLastWins | app.py:598-603 | an account listed twice keeps the e-mail of its last listing |
| Access.GrantedCount | app.py:612-630 | filtering keeps each granting project as often as it is listed and drops every other one |
| Access.AllowedMembership | app.py:571-630 | a project is allowed exactly when the user has an e-mail, the project is listed and it grants access to that e-mail |
| Access.ProjectGrants | app.py:614-630 | the per-project scan finds a member with the user's e-mail exactly when the project grants access |
| Access.BuildEmailIndex | app.py:598-603 | the loop builds the e-mail index |
| Access.FilterGranted | app.py:612-630 | the loop keeps exactly the granting projects, in order |
| Access.AllowedProjects | app.py:571-630 | `get_allowed_projects_for_mm_user` returns the allowed projects, none for a user without an e-mail |
| Dialogs.GetText | app.py:1654-1655 | a missing field reads as the default and a stored string as itself |
| Dialogs.GetStr | app.py:1744 | a field reads as a string exactly when a string is stored |
| Dialogs.GetTruthy | app.py:1822-1825 | a field reads as truthy exactly when a non-empty string is stored |
| Dialogs.PostIdsOf | app.py:1622 | the service posts are the stored ids, none when the field is missing |
| Dialogs.TitleIn | app.py:1375 | the title of an offered id is the one the prompt stored, the default otherwise |
| Dialogs.Merge | app.py:159-171 | a merged record always carries both time stamps, `updated_at` being `now` |
| Dialogs.MergeSpec | app.py:159-171 | `set_state` keeps an existing `created_at` or stamps it, writes every given field, stamps `updated_at` and keeps every other field |
| Dialogs.MergeNothing | app.py:159-171 | merging nothing into a stamped record only refreshes `updated_at` |
| Dialogs.MergeTwice | app.py:159-171 | merging the same fields again later changes nothing but `updated_at` |
| Dialogs.MergeKeepsCreatedAt | app.py:159-171 | once a record is stamped, later merges keep its `created_at` |
| Dialogs.DialogStore.constructor | app.py:99 | the store starts empty |
| Dialogs.DialogStore.Get | app.py:174-177 | `get_state` finds a record exactly when one is stored under the key |
| Dialogs.DialogStore.SetState | app.py:159-171 | the key's record becomes the merge of the old one with the data, and no other key changes |
| Dialogs.DialogStore.ClearState | app.py:180-183 | the key's record is gone and no other key changes |
| Dialogs.DialogStore.Replace | app.py:1960-1968 | writing a record outright replaces the key's record only |
| Channels.DefaultTitle | app.py:149 | a stored default title is never empty: the project's title, or "без названия" |
| Channels.ChannelDefaults.constructor | app.py:108 | no channel starts with a default |
| Channels.ChannelDefaults.Get | app.py:138-143 | a channel has an entry exactly when one is stored for it |
| Channels.ChannelDefaults.Set | app.py:145-151 | the channel's default becomes the project with a non-empty title, other channels keep theirs, and every entry stays titled |
| Channels.ChannelDefaults.Delete | app.py:153-157 | the channel's default is gone, others are kept, and the map is written back exactly when there was an entry |
| Machine.Deletes | app.py:1622-1633 | one delete per service post, in order |
| Machine.Or | app.py:1077 | Python's `or`: the first value when truthy, else the second |
| Machine.RootOf | app.py:232-233 | a reply goes into a thread exactly when the root id is truthy |
| Machine.FullName | app.py:1716-1719 | the author's name is empty only with an empty user name, and is the user name when first and last names are blank |
| Machine.TaskLink | app.py:1744-1753 | with a team, a non-empty slug and a task id the link is `https://ru.yougile.com/team/<team>/<slug>#<id>`. Without a title, a task id or a non-empty slug it is the team's page; without a team it is the site |
| Machine.TaskLinkFragment | app.py:1748-1749 | with a team, a slug and a task id, the YouGile task id is exactly what follows the link's only `#` |
| Machine.SummaryText | app.py:698-712 | the summary opens with the quoted title and names the project, board, assignee and deadline, each between its caption and the next; it ends with the link line, which is there exactly when there is a link |
| Machine.SummaryOf | app.py:1654-1666 | the summary of a record names its stored project, board, assignee and deadline text after their captions, with `без названия`, `не указан` and `без дедлайна` for missing fields. It ends with `Ссылка: <url>` when the record holds a link, and has no link line otherwise |
| Machine.TitleValue | app.py:1087 | the context's truthy title wins, else the record's stored title, else "Без названия" |
| Machine.StoredDeadline | app.py:456 | a deadline date is read exactly when a date is stored |
| Machine.FirstMember | app.py:1552-1556 | the member found has the id and no member before it has that id; none is found only when no member has it |
| Machine.NameFor | app.py:1548-1556 | for the first member with the id, the name is its real name, else its e-mail, else the id; with no such member it is the id |
| Machine.DefaultAmong | app.py:1870-1877 | the default project found is an allowed one with the stored id and no allowed project before it has that id; none is found only when no allowed project has it |
| Machine.AddPostIdSpec | app.py:1432 | recording a prompt appends exactly its id to the service posts and keeps every other field but the stamp |
| Wizard.PressOf | app.py:1077-1087 | a press is keyed by the acting user and the root post, with the context's values winning, and carries the title the context or the record gives |
| Wizard.CancelledTitle | app.py:1637-1640 | the cancel notice names a title only when it is a real one, not the default |
| Sweeper.LastTouched | app.py:2266-2268 | the idle clock reads `updated_at` when set and non-zero, else `created_at`, and never a zero stamp |
| Listener.LastPrompt | app.py:2137-2138 | the prompt a typed date answers is the dialog's last service post, when there is one |
| LoopBot.LookupName | app.py:1548-1556 | the member scan returns the name of the first member with the id, or the id |
| LoopBot.LookupDefault | app.py:1870-1877 | the scan of allowed projects returns the first one with the channel's default id |
| LoopBot.Bot.constructor | app.py:99-108 | the bot starts with no dialog, no default and no call made |
| LoopBot.Bot.RecordPrompt | app.py:1432 | the key's service posts gain the posted id |
| LoopBot.Bot.OneBoard | app.py:1400-1432 | the one-board branch leaves the world its specification describes |
| LoopBot.Bot.WithProject | app.py:1393-1449 | the board branches leave the world their specification describes |
| LoopBot.Bot.StartTaskCreation | app.py:1847-1979 | `start_task_creation` leaves the world its specification describes |
| LoopBot.Bot.CreateTaskAndUpdatePost | app.py:1703-1805 | task creation leaves the world its specification describes |
| LoopBot.Bot.MenuCreateTask | app.py:1091-1116 | the menu's "create task" leaves the world its specification describes |
| LoopBot.Bot.OfferDefaults | app.py:1130-1213 | offering default projects leaves the world its specification describes |
| LoopBot.Bot.SaveDefault | app.py:1223-1253 | saving a default leaves the world its specification describes, every default titled |
| LoopBot.Bot.ChooseProject | app.py:1368-1449 | `CHOOSE_PROJECT` leaves the world its specification describes |
| LoopBot.Bot.ChooseBoard | app.py:1450-1497 | `CHOOSE_BOARD` leaves the world its specification describes |
| LoopBot.Bot.ChooseColumn | app.py:1498-1537 | `CHOOSE_COLUMN` leaves the world its specification describes |
| LoopBot.Bot.ChooseAssignee | app.py:1538-1588 | `CHOOSE_ASSIGNEE` leaves the world its specification describes |
| LoopBot.Bot.ChooseDeadline | app.py:1590-1616 | `CHOOSE_DEADLINE` leaves the world its specification describes |
| LoopBot.Bot.Cancel | app.py:1619-1648 | the loop over the service posts deletes each one, in order, before the notice |
| LoopBot.Bot.Finish | app.py:1651-1687 | `FINISH` leaves the world its specification describes |
| LoopBot.Bot.Dispatch | app.py:1089-1687 | each named step runs its handler and reports whether it raised |
| LoopBot.Bot.HandleAction | app.py:1065-1696 | `mm_actions` leaves the world its specification describes and keeps every default titled |
| LoopBot.Bot.AutoFinish | app.py:1807-1845 | `auto_finish_dialog` leaves the world its specification describes |
| LoopBot.Bot.Sweep | app.py:2253-2277 | the cleanup loop's pass leaves the world its specification describes |
| LoopBot.Bot.TypedDate | app.py:2114-2148 | a typed date leaves the world its specification describes |
| LoopBot.Bot.TypedTitle | app.py:2151-2173 | a typed title leaves the world its specification describes |
| LoopBot.Bot.Attachment | app.py:2176-2234 | a thread message after creation leaves the world its specification describes |
| LoopBot.Bot.HandlePosted | app.py:2030-2234 | one `posted` event leaves the world its specification describes and keeps every default titled |
| WizardFacts.SetStWrites | app.py:159-171 | after `set_state` the record holds every field it was given |
| WizardFacts.SetStKeepsRest | app.py:159-171 | after `set_state` every field it was not given, but the update stamp, is as before |
| WizardFacts.OneBoardOutcome | app.py:1400-1432 | choosing the only board fails exactly when the board has no id (app.py:1403 reads `board["id"]`) or the columns cannot be listed; it stores the board, and with columns records the column prompt |
| WizardFacts.ManyBoardsOutcome | app.py:1433-1449 | with several boards their titles are stored and the board prompt joins the service posts |
| WizardFacts.WithProjectFrame | app.py:1393-1449 | once a project is known only the dialog under the key changes, its context is kept and calls are only added; no board only posts a notice |
| WizardFacts.ChooseProjectFails | app.py:1368-1449 | `CHOOSE_PROJECT` fails exactly when the boards cannot be listed or the only board's columns cannot |
| WizardFacts.ChooseProjectFrame | app.py:1368-1449 | `CHOOSE_PROJECT` changes only the presser's dialogs and no default, and only adds calls |
| WizardFacts.ChooseProjectStores | app.py:1368-1449 | the chosen project, with the title its prompt offered, the YouGile task title and the channel are stored and kept by what follows |
| WizardFacts.ChooseBoardFrame | app.py:1450-1497 | `CHOOSE_BOARD` changes only the presser's dialogs and no default, and only adds calls |
| WizardFacts.ChooseBoardOutcome | app.py:1450-1497 | the board is stored with its offered title and the stored project is kept; it fails exactly when the columns cannot be listed; with columns the column prompt is recorded |
| WizardFacts.ChooseColumnFrame | app.py:1498-1537 | `CHOOSE_COLUMN` changes only the presser's dialogs and no default, and only adds calls |
| WizardFacts.ChooseColumnStores | app.py:1498-1537 | the column is stored and the stored project and board are kept, whether or not the step fails |
| WizardFacts.ChooseColumnFails | app.py:1498-1537 | `CHOOSE_COLUMN` fails exactly when the members cannot be listed or one lacks an id |
| WizardFacts.ChooseColumnPrompt | app.py:1527-1535 | a successful `CHOOSE_COLUMN` posts the assignee prompt last and records it |
| WizardFacts.ChooseAssigneeFrame | app.py:1538-1588 | `CHOOSE_ASSIGNEE` changes only the presser's dialogs and no default, and only adds calls |
| WizardFacts.ChooseAssigneeStores | app.py:1538-1588 | the assignee and a non-empty name for it are stored (the id when no member matches) and the column is kept |
| WizardFacts.ChooseAssigneePrompt | app.py:1578-1587 | `CHOOSE_ASSIGNEE` posts the deadline prompt last and records it |
| WizardFacts.AfterCreationFrame | app.py:1744-1805 | after creation only the user's dialogs change, no default changes and calls are only added |
| WizardFacts.CreateTaskCalls | app.py:1715-1733 | the first call recorded sends the body built from the record. Creation fails exactly when that create call fails, and then the create call is the only call and no dialog changes. Only the user's dialogs change, and no default |
| WizardFacts.AfterCreationRecord | app.py:1768-1805 | after creation the dialog waits for attachments with the YouGile task's id, link, deadline text and service posts, its context and every other dialog kept |
| WizardFacts.CreateTaskRecord | app.py:1703-1805 | a created task's stored link points into YouGile |
| WizardFacts.ChooseDeadlineCustom | app.py:1590-1605 | "custom" only stores the choice and asks for a date; no task is created and the service posts are unchanged |
| WizardFacts.ChooseDeadlineCreates | app.py:1590-1616 | any other choice sends the body with the stored column and assignee and the deadline the choice names; it fails exactly when creation fails |
| WizardFacts.ChooseDeadlineFrame | app.py:1590-1616 | `CHOOSE_DEADLINE` changes only the presser's dialogs and no default, and only adds calls |
| FlowFacts.StartRefused | app.py:1857-1868 | a user with no allowed project gets the refusal and nothing else happens |
| FlowFacts.StartPicking | app.py:1953-1979 | without a usable default the dialog starts afresh, waits for a project with the title, channel and root, and has the prompt as its only service post |
| FlowFacts.DefaultForSpec | app.py:1870-1877 | the channel's default is used only when it is one of the user's allowed projects |
| FlowFacts.StartWithDefault | app.py:1879-1951 | with a usable default the dialog skips the project step and holds that project, the title, the channel and the root |
| FlowFacts.StartWithDefaultFails | app.py:1879-1951 | with a default, starting fails exactly as choosing that project would |
| FlowFacts.CancelOutcome | app.py:1619-1648 | `CANCEL` deletes every service post in order, then posts the notice; the record is gone and nothing else changes |
| FlowFacts.MenuCreateTaskOutcome | app.py:1091-1116 | the dialog waits for a typed title, the menu post becomes the question and is the only service post |
| FlowFacts.MenuThenCancel | app.py:1091-1116 | cancelling right after the menu deletes exactly the question post and drops the record |
| FlowFacts.SaveDefaultOutcome | app.py:1223-1253 | an empty selection changes nothing; "__none__" drops the channel's default; another id becomes the default with its offered title; the dialog closes |
| FlowFacts.SaveDefaultTitled | app.py:1337-1367 | saving a default never leaves an untitled default behind |
| FlowFacts.OfferDefaultsFrame | app.py:1130-1213 | offering default projects changes only the dialog under the key and no default |
| FlowFacts.FinishOutcome | app.py:1651-1687 | `FINISH` posts the summary to the thread and then the channel, closes the post and drops the record, nothing else changing |
| FlowFacts.DispatchConfined | app.py:1089-1687 | whatever step is pressed, only the presser's dialogs change and calls are only added; only default-project steps touch defaults |
| FlowFacts.HandleActionConfined | app.py:1065-1696 | a press changes only the presser's dialogs and only adds calls; a press missing a field changes nothing |
| FlowFacts.HandleActionTitled | app.py:1065-1696 | no press leaves a channel default without a title |
| SessionFacts.CreatedThenDue | app.py:2253-2277 | a created task's dialog is due for the sweep exactly when more than the timeout has passed since creation |
| SessionFacts.AttachmentOutcome | app.py:2176-2234 | a thread message goes to the YouGile task's chat; when anything arrived, the dialog only restarts its idle clock and is not due |
| SessionFacts.AutoFinishOutcome | app.py:1807-1845 | a record with a channel gets its summary and the note and is dropped; any other is left alone |
| SessionFacts.SweepFromDialogs | app.py:2260-2275 | a pass over a snapshot drops exactly the listed dialogs it closes and leaves every other dialog |
| SessionFacts.SweepDialogs | app.py:2253-2277 | one pass drops exactly the dialogs that are due and name a channel |
| SessionFacts.StartConfined | app.py:1847-1979 | `start_task_creation` changes only the user's dialogs and no default, and only adds calls |
| SessionFacts.CustomAwaitsDate | app.py:1590-1605 | after "custom" the dialog waits for a typed date |
| SessionFacts.TypedDateUnreadable | app.py:2118-2128 | an unreadable typed date only gets a notice |
| SessionFacts.TypedDateCreates | app.py:2130-2141 | a readable date with a prompt on record creates the YouGile task with that deadline and the dialog's title, column and assignee |
| SessionFacts.TypedDateNoPrompt | app.py:2130-2147 | a readable date with no prompt on record is stored and only confirmed |
| SessionFacts.TypedTitleFrame | app.py:2151-2173 | a typed title changes only the user's dialogs and no default |
| SessionFacts.HandlePostedMembership | app.py:2040-2092 | the bot added to a channel greets it, the bot removed forgets that channel's default; no dialog changes and other users' events do nothing |
| SessionFacts.HandlePostedMention | app.py:2095-2111 | a message mentioning the bot changes only its author's dialogs and no default |
| SessionFacts.HandlePostedReply | app.py:2114-2234 | a message without a mention changes only its author's dialogs and no default |
| SessionFacts.HandlePostedConfined | app.py:2030-2234 | an event changes only its author's dialogs and only adds calls; defaults change only when the bot leaves a channel, and only that channel's |
| SessionFacts.AttachmentFrame | app.py:2176-2234 | a thread message after creation changes only that dialog and no default |

## Left out

- The HTTP and REST wrappers, Flask, the websocket connection and its reconnects, sleeps, threads and locks are left out. Each handler is taken as one atomic step. The calls are recorded as effects; their answers are inputs.
- The JSON file behind the channel defaults is not modelled, nor is reading it at start-up. The map lives in memory and `Channels.ChannelDefaults.Delete` reports whether it would be written back.
- Message wording and attachment JSON are not modelled. Each message is a constructor naming its purpose, carrying the options and names it shows.
- The channel display name fetched by `MENU_CHANGE_DEFAULT_PROJECT` and the text of `MENU_SHOW_SHORTCUTS` are message wording only, so they are not modelled.
- File relay is reduced to whether any file reached the YouGile task chat (`filesSent`). The prefix added to relayed comments is not modelled.
- Slug.SlugifyTitle: stops before `urllib.parse.quote`. The URL-encoding of the slug is not modelled.
- Text.Lower: covers ASCII and the Cyrillic capitals U+0400–U+042F only. Python's full Unicode case mapping is not modelled.
- Calendar.ParseIsoDate: models the `%Y-%m-%d` format only. Other `strptime` behaviour is not modelled.
- Calendar.ParseIsoDate: takes ASCII digits only. In a `str` pattern `\d` also matches other Unicode decimal digits, and `int()` reads them, so `２０２５-01-05` with fullwidth digits is a date for the code and unreadable for the model.
- A JSON `null` and an absent key are the same in the model, for ids and also for titles, `realName` and `email`. An absent root or user id is the empty string where the code only tests truthiness. The code differs only for a stored `null`. A `null` title gives `None` from `p.get("title", "без названия")` (app.py:1880, app.py:1906), which changes the slug and the link. A `null` e-mail gives the label `None` from `u.get("realName", "") or u.get("email", "Без имени")` (app.py:881). The model shows the default text in both cases.
- Clock readings are parameters: `now` as a real number of seconds, `today` as a date. One `now` serves a whole handler. In the code, each `set_state` reads `time.time()` afresh (app.py:164), so the stamps within one handler can differ slightly.
- LoopBot.Bot.AutoFinish: a raising call inside `auto_finish_dialog` is caught and logged by the loop. The model treats the calls as succeeding.
- LoopBot.Bot.Sweep: the order in which `STATE.items()` lists its keys is a parameter. Its results are proved for any order listing each key once.
- The `YOUGILE_TEAM_ID or YOUGILE_COMPANY_ID` choice is a configuration value, taken as the bot's `teamId`.
- Logging (`print`) and the Flask health route are not modelled.
- Wizard.CreateTaskAndUpdatePost: Loop's own calls are taken to succeed here and everywhere else in the model: posts, patches and the user and channel lookups. In the code a raising one aborts the handler. So `mm_get_user` failing at app.py:1715 stops creation before any create call. The model always records the create call first.
- WizardFacts.CreateTaskCalls: says when creation fails for the create call alone. It does not cover an author lookup that raises before it (app.py:1715).
- Wizard.OfferDefaults: a raising `mm_get_channel` (app.py:1147) would post the error notice without writing the dialog. The model always writes it.
- The prompt posts in every step (for example app.py:1425-1433): a raising `mm_post` would leave the step's fields written but append no post id. The model always appends the posted id.
- Calendar.DottedString: pads the year to four digits. Some older CPython builds on glibc print years below 1000 without padding.
