/**
 * The running bot: the dialog store, the channel map and the calls made so
 * far, updated in place by one method per handler of the source. Each method
 * is proved to leave exactly the world its specification function in
 * `Wizard`, `Sweeper` or `Listener` describes.
 */
module LoopBot {
  import opened Wrappers
  import opened Text
  import opened Calendar
  import opened Deadline
  import opened Command
  import opened Payload
  import opened Access
  import opened Dialogs
  import opened Channels
  import opened Machine
  import opened Wizard
  import opened Sweeper
  import opened Listener

  /** The `CHOOSE_ASSIGNEE` loop: the name of the first member with the id, or the id itself. */
  method LookupName(members: seq<Member>, assigneeId: string) returns (name: string)
    ensures name == NameFor(members, assigneeId)
  {
    var i := 0;
    while i < |members|
      invariant 0 <= i <= |members|
      invariant FirstMember(members[i..], assigneeId) == FirstMember(members, assigneeId)
    {
      assert members[i..][1..] == members[i + 1..];
      if members[i].id == Some(assigneeId) {
        var u := members[i];
        name := if Truthful(u.realName) then u.realName.value
                else if Truthful(u.email) then u.email.value
                else assigneeId;
        return;
      }
      i := i + 1;
    }
    name := assigneeId;
  }

  /** The `start_task_creation` loop: the first allowed project with the channel's default id. */
  method LookupDefault(allowed: seq<Project>, projectId: string) returns (found: Option<Project>)
    ensures found == DefaultAmong(allowed, projectId)
  {
    var i := 0;
    while i < |allowed|
      invariant 0 <= i <= |allowed|
      invariant DefaultAmong(allowed[i..], projectId) == DefaultAmong(allowed, projectId)
    {
      assert allowed[i..][1..] == allowed[i + 1..];
      if allowed[i].entity.id == Some(projectId) {
        return Some(allowed[i]);
      }
      i := i + 1;
    }
    found := None;
  }

  class Bot {
    const store: DialogStore
    const channels: ChannelDefaults
    /** `YOUGILE_TEAM_ID or YOUGILE_COMPANY_ID`. */
    const teamId: string
    /** Every call made so far, in order. */
    var effects: seq<Effect>

    /** The bot's state as a value. */
    function Snapshot(): World
      reads this, store, channels
    {
      World(store.dialogs, channels.entries, effects)
    }

    ghost predicate Valid()
      reads this, channels
    {
      channels.Valid()
    }

    constructor(teamId: string)
      ensures Valid() && fresh(store) && fresh(channels)
      ensures this.teamId == teamId
      ensures Snapshot() == World(map[], map[], [])
    {
      this.teamId := teamId;
      store := new DialogStore();
      channels := new ChannelDefaults();
      effects := [];
    }

    // -------------------------------------------------------------------------
    // Primitive updates
    // -------------------------------------------------------------------------

    method Emit(e: Effect)
      modifies this
      ensures Snapshot() == Send(old(Snapshot()), e)
    {
      effects := effects + [e];
    }

    method WriteState(key: Key, data: Dialog, now: real)
      modifies store
      ensures Snapshot() == SetSt(old(Snapshot()), key, data, now)
    {
      var d := store.SetState(key, data, now);
    }

    method DropState(key: Key)
      modifies store
      ensures Snapshot() == Machine.Clear(old(Snapshot()), key)
    {
      store.ClearState(key);
    }

    method ReplaceState(key: Key, d: Dialog)
      modifies store
      ensures Snapshot() == Put(old(Snapshot()), key, d)
    {
      store.Replace(key, d);
    }

    method WriteDefault(channel: string, projectId: string, title: string)
      requires Valid()
      modifies channels
      ensures Valid()
      ensures Snapshot() == SetDefault(old(Snapshot()), channel, projectId, title)
    {
      channels.Set(channel, projectId, title);
    }

    method RemoveDefault(channel: string)
      requires Valid()
      modifies channels
      ensures Valid()
      ensures Snapshot() == DropDefault(old(Snapshot()), channel)
    {
      var saved := channels.Delete(channel);
    }

    /** `set_state(key, {"post_ids": state.get("post_ids", []) + [id]})`. */
    method RecordPrompt(key: Key, id: string, now: real)
      modifies store
      ensures Snapshot() == AddPostId(old(Snapshot()), key, id, now)
    {
      var ids := PostIdsOf(store.Current(key));
      WriteState(key, map[PostIds := Ids(ids + [id])], now);
    }

    // -------------------------------------------------------------------------
    // start_task_creation and create_task_and_update_post
    // -------------------------------------------------------------------------

    method OneBoard(key: Key, channel: string, task: string, board: Entity, remote: Remote, now: real)
      returns (ok: bool)
      modifies this, store
      ensures Run(Snapshot(), ok) == Wizard.OneBoard(old(Snapshot()), key, channel, task, board, remote, now)
    {
      if board.id.None? {
        return false;
      }
      var boardTitle := board.title.GetOr("без названия");
      WriteState(key, map[Step := Str(ChooseBoardStep), BoardId := Str(board.id.value),
                          BoardTitle := Str(boardTitle)], now);
      if remote.columns.None? {
        return false;
      }
      var columns := remote.columns.value;
      if columns == [] {
        Emit(Post(channel, Reply(key), NoColumns(boardTitle)));
        return true;
      }
      WriteState(key, map[ColumnOptions := Titles(OptionTitles(columns))], now);
      Emit(Post(channel, Reply(key), ColumnPrompt(task, PromptChoices(columns))));
      RecordPrompt(key, remote.postedId, now);
      return true;
    }

    method WithProject(key: Key, channel: string, task: string, projectTitle: string,
                       boards: seq<Entity>, remote: Remote, now: real)
      returns (ok: bool)
      modifies this, store
      ensures Run(Snapshot(), ok) == Wizard.WithProject(old(Snapshot()), key, channel, task, projectTitle, boards, remote, now)
    {
      if |boards| == 0 {
        Emit(Post(channel, Reply(key), NoBoards(projectTitle)));
        return true;
      }
      if |boards| == 1 {
        ok := OneBoard(key, channel, task, boards[0], remote, now);
        return;
      }
      WriteState(key, map[BoardOptions := Titles(OptionTitles(boards))], now);
      Emit(Post(channel, Reply(key), BoardPrompt(task, PromptChoices(boards))));
      RecordPrompt(key, remote.postedId, now);
      return true;
    }

    method StartTaskCreation(key: Key, channel: string, title: string, remote: Remote, now: real)
      returns (ok: bool)
      modifies this, store
      ensures Run(Snapshot(), ok) == Wizard.StartTaskCreation(old(Snapshot()), key, channel, title, remote, now)
    {
      var allowed := AllowedProjects(remote.actorEmail, remote.roster, remote.projects);
      if allowed == [] {
        Emit(Post(channel, Reply(key), NoAccess));
        return true;
      }
      var found := None;
      var entry := channels.Get(channel);
      if entry.Some? {
        found := LookupDefault(allowed, entry.value.projectId);
      }
      assert found == DefaultFor(Snapshot(), channel, allowed);
      if found.Some? {
        var p := found.value;
        var projectTitle := p.entity.title.GetOr("без названия");
        WriteState(key, DefaultStart(key, channel, title, p.entity.id.value, projectTitle), now);
        if remote.boards.None? {
          return false;
        }
        ok := WithProject(key, channel, title, projectTitle, remote.boards.value, remote, now);
        return;
      }
      ReplaceState(key, PickStart(key, channel, title, allowed));
      Emit(Post(channel, Reply(key), ProjectPrompt(title, PromptChoices(EntitiesOf(allowed)))));
      WriteState(key, map[PostIds := Ids([remote.postedId])], now);
      return true;
    }

    method CreateTaskAndUpdatePost(title: Value, state: Dialog, user: string, post: string, remote: Remote, now: real)
      returns (ok: bool)
      modifies this, store
      ensures Run(Snapshot(), ok) == Wizard.CreateTaskAndUpdatePost(old(Snapshot()), teamId, title, state, user, post, remote, now)
    {
      Emit(CreateTask(BodyFor(title, state, remote.author)));
      if remote.creation.CreateFailed? {
        return false;
      }
      var url := TaskLink(teamId, GetStr(state, ProjectTitle), remote.creation.taskProjectId);
      var deadlineStr := DeadlineStrOf(state);
      var root := GetStr(state, RootPostId);
      var channel := GetStr(state, ChannelId);
      var ids := PostIdsOf(state);
      Emit(Patch(post, DeadlineSet(Render(title), deadlineStr)));
      if Truthful(channel) {
        Emit(Post(channel.value, RootOf(root), TaskCreated(Render(title), url)));
        ids := ids + [remote.postedId];
      }
      WriteState((user, root.GetOr("")), AttachData(remote.creation.taskId, url, deadlineStr, ids), now);
      return true;
    }
  
    // -------------------------------------------------------------------------
    // mm_actions
    // -------------------------------------------------------------------------

    method MenuCreateTask(p: Press, now: real)
      modifies this, store
      ensures Snapshot() == Wizard.MenuCreateTask(old(Snapshot()), p, now)
    {
      WriteState(p.key, map[Step := Str(AskTaskTitleStep), ChannelId := Str(p.channel), TaskTitle := Null,
                            AskTitlePostId := Str(p.post), PostIds := Ids([p.post])], now);
      Emit(Patch(p.post, AskTitle));
    }

    method OfferDefaults(p: Press, fromMenu: bool, remote: Remote, now: real)
      modifies this, store
      ensures Snapshot() == Wizard.OfferDefaults(old(Snapshot()), p, fromMenu, remote, now)
    {
      var allowed := AllowedProjects(remote.actorEmail, remote.roster, remote.projects);
      if allowed == [] {
        Emit(Post(p.channel, Thread(p), NoProjectsFound));
        return;
      }
      var es := EntitiesOf(allowed);
      var entry := channels.Get(p.channel);
      var current := if entry.Some? then entry.value.projectTitle else "не установлен";
      var step := if fromMenu then MenuChangeDefaultProjectStep else DefaultProjectSelectStep;
      WriteState(p.key, map[Step := Str(step), ChannelId := Str(p.channel),
                            ProjectOptions := Titles(OptionTitles(es))], now);
      if fromMenu {
        Emit(Patch(p.post, DefaultProjectMenu(current, DefaultProjectChoices(es, false))));
      } else {
        Emit(Patch(p.post, DefaultProjectPrompt(DefaultProjectChoices(es, true))));
      }
    }

    method SaveDefault(p: Press, fromMenu: bool, selected: Option<string>)
      requires Valid()
      modifies this, store, channels
      ensures Valid()
      ensures Snapshot() == Wizard.SaveDefault(old(Snapshot()), p, fromMenu, selected)
    {
      if !Truthful(selected) {
        return;
      }
      if selected.value == NoneValue {
        RemoveDefault(p.channel);
        Emit(Patch(p.post, DefaultProjectOff(fromMenu)));
        DropState(p.key);
        return;
      }
      var title := TitleIn(store.Current(p.key), ProjectOptions, selected.value, "без названия");
      WriteDefault(p.channel, selected.value, title);
      Emit(Patch(p.post, DefaultProjectSaved(fromMenu, title)));
      DropState(p.key);
    }

    method ChooseProject(p: Press, selected: Option<string>, remote: Remote, now: real) returns (ok: bool)
      modifies this, store
      ensures Run(Snapshot(), ok) == Wizard.ChooseProject(old(Snapshot()), p, selected, remote, now)
    {
      if !Truthful(selected) {
        return true;
      }
      var projectId := selected.value;
      var projectTitle := TitleIn(store.Current(p.key), ProjectOptions, projectId, "без названия");
      WriteState(p.key, map[Step := Str(ChooseProjectStep), TaskTitle := p.title, ProjectId := Str(projectId),
                            ProjectTitle := Str(projectTitle), ChannelId := Str(p.channel)], now);
      if remote.boards.None? {
        return false;
      }
      var task := Render(p.title);
      Emit(Patch(p.post, ProjectChosen(task, projectTitle)));
      ok := WithProject(p.key, p.channel, task, projectTitle, remote.boards.value, remote, now);
    }

    method ChooseBoard(p: Press, selected: Option<string>, ctxProjectId: Option<string>, remote: Remote, now: real)
      returns (ok: bool)
      modifies this, store
      ensures Run(Snapshot(), ok) == Wizard.ChooseBoard(old(Snapshot()), p, selected, ctxProjectId, remote, now)
    {
      if !Truthful(selected) {
        return true;
      }
      var boardId := selected.value;
      var state := store.Current(p.key);
      var projectId := Or(GetStr(state, ProjectId), ctxProjectId);
      var boardTitle := TitleIn(state, BoardOptions, boardId, "без названия");
      WriteState(p.key, map[Step := Str(ChooseBoardStep), ProjectId := OptValue(projectId),
                            BoardId := Str(boardId), BoardTitle := Str(boardTitle)], now);
      if remote.columns.None? {
        return false;
      }
      var columns := remote.columns.value;
      if columns == [] {
        Emit(Patch(p.post, NoColumns(boardTitle)));
        return true;
      }
      var task := Render(p.title);
      WriteState(p.key, map[ColumnOptions := Titles(OptionTitles(columns))], now);
      Emit(Patch(p.post, BoardChosen(task, boardTitle)));
      Emit(Post(p.channel, Thread(p), ColumnPrompt(task, PromptChoices(columns))));
      RecordPrompt(p.key, remote.postedId, now);
      return true;
    }

    method ChooseColumn(p: Press, selected: Option<string>, ctxProjectId: Option<string>, ctxBoardId: Option<string>,
                        remote: Remote, now: real)
      returns (ok: bool)
      modifies this, store
      ensures Run(Snapshot(), ok) == Wizard.ChooseColumn(old(Snapshot()), p, selected, ctxProjectId, ctxBoardId, remote, now)
    {
      if !Truthful(selected) {
        return true;
      }
      var columnId := selected.value;
      var state := store.Current(p.key);
      var projectId := Or(GetStr(state, ProjectId), ctxProjectId);
      var boardId := Or(GetStr(state, BoardId), ctxBoardId);
      var columnTitle := TitleIn(state, ColumnOptions, columnId, "без названия");
      WriteState(p.key, map[Step := Str(ChooseColumnStep), ProjectId := OptValue(projectId),
                            BoardId := OptValue(boardId), ColumnId := Str(columnId)], now);
      if remote.members.None? {
        return false;
      }
      var choices := AssigneeChoices(remote.members.value);
      if choices.None? {
        return false;
      }
      var task := Render(p.title);
      Emit(Patch(p.post, ColumnChosen(task, columnTitle)));
      Emit(Post(p.channel, Thread(p), AssigneePrompt(task, choices.value)));
      RecordPrompt(p.key, remote.postedId, now);
      return true;
    }

    method ChooseAssignee(p: Press, selected: Option<string>, remote: Remote, now: real)
      modifies this, store
      ensures Snapshot() == Wizard.ChooseAssignee(old(Snapshot()), p, selected, remote, now)
    {
      if !Truthful(selected) {
        return;
      }
      var assigneeId := selected.value;
      WriteState(p.key, map[Step := Str(ChooseAssigneeStep), AssigneeId := Str(assigneeId)], now);
      var name := assigneeId;
      if remote.members.Some? {
        name := LookupName(remote.members.value, assigneeId);
      }
      WriteState(p.key, map[AssigneeName := Str(name)], now);
      var task := Render(p.title);
      Emit(Patch(p.post, AssigneeChosen(task, name)));
      Emit(Post(p.channel, Thread(p), DeadlinePrompt(task)));
      RecordPrompt(p.key, remote.postedId, now);
    }

    method ChooseDeadline(p: Press, choice: Option<string>, remote: Remote, today: CivilDate, now: real)
      returns (ok: bool)
      modifies this, store
      ensures Run(Snapshot(), ok) == Wizard.ChooseDeadline(old(Snapshot()), teamId, p, choice, remote, today, now)
    {
      WriteState(p.key, map[Step := Str(ChooseDeadlineStep), DeadlineChoice := OptValue(choice)], now);
      if choice == Some("custom") {
        Emit(Patch(p.post, CustomDatePrompt(Render(p.title))));
        return true;
      }
      if choice == Some("none") {
        WriteState(p.key, map[Deadline := Null], now);
      } else {
        var d := CalcDeadline(choice, today);
        if d.None? {
          return false;
        }
        WriteState(p.key, map[Deadline := Day(d.value)], now);
      }
      ok := CreateTaskAndUpdatePost(p.title, store.Current(p.key), p.key.0, p.post, remote, now);
    }

    /** `CANCEL`: the loop deletes the service posts one by one, in order. */
    method Cancel(p: Press, ctxTitle: Option<string>)
      modifies this, store
      ensures Snapshot() == Wizard.Cancel(old(Snapshot()), p, ctxTitle)
    {
      var state := store.Current(p.key);
      var channel := GetText(state, ChannelId, p.channel);
      var ids := PostIdsOf(state);
      var i := 0;
      while i < |ids|
        invariant 0 <= i <= |ids|
        invariant effects == old(effects) + Deletes(ids[..i])
        modifies this
      {
        assert Deletes(ids[..i + 1]) == Deletes(ids[..i]) + [DeletePost(ids[i])];
        Emit(DeletePost(ids[i]));
        i := i + 1;
      }
      assert ids[..i] == ids;
      DropState(p.key);
      Emit(Post(channel, Thread(p), Cancelled(CancelledTitle(ctxTitle, state))));
    }

    method Finish(p: Press)
      modifies this, store
      ensures Snapshot() == Wizard.Finish(old(Snapshot()), p)
    {
      var state := store.Current(p.key);
      var channel := GetText(state, ChannelId, p.channel);
      var summary := SummaryOf(state, Render(p.title));
      Emit(Post(channel, Thread(p), TaskSummary(summary)));
      Emit(Post(channel, None, TaskSummary(summary)));
      Emit(Patch(p.post, DialogFinished(Render(p.title))));
      DropState(p.key);
    }

    method Dispatch(a: Action, remote: Remote, today: CivilDate, now: real) returns (ok: bool)
      requires Valid() && Accepted(a)
      modifies this, store, channels
      ensures Valid()
      ensures Run(Snapshot(), ok) == Wizard.Dispatch(old(Snapshot()), teamId, a, remote, today, now)
    {
      var p := PressOf(Snapshot(), a);
      var selected := ExtractSelectedValue(a.ctxSelected, a.dataSelected);
      ok := true;
      match a.step.value {
        case "MENU_CREATE_TASK" =>
          MenuCreateTask(p, now);
        case "MENU_SHOW_SHORTCUTS" =>
          Emit(Post(p.channel, Thread(p), Shortcuts));
        case "MENU_CHANGE_DEFAULT_PROJECT" =>
          OfferDefaults(p, true, remote, now);
        case "MENU_DEFAULT_PROJECT_CANCEL" =>
          Emit(Patch(p.post, DefaultProjectKept));
          DropState(p.key);
        case "MENU_DEFAULT_PROJECT_SET" =>
          SaveDefault(p, true, selected);
        case "MENU_CANCEL" =>
          Emit(Patch(p.post, DialogClosed));
          DropState(p.key);
        case "DEFAULT_PROJECT_PROMPT_NO" =>
          RemoveDefault(p.channel);
          Emit(Patch(p.post, DefaultProjectDeclined));
          DropState(p.key);
        case "DEFAULT_PROJECT_PROMPT_YES" =>
          OfferDefaults(p, false, remote, now);
        case "DEFAULT_PROJECT_SET" =>
          SaveDefault(p, false, selected);
        case "CHOOSE_PROJECT" =>
          ok := ChooseProject(p, selected, remote, now);
        case "CHOOSE_BOARD" =>
          ok := ChooseBoard(p, selected, a.ctxProjectId, remote, now);
        case "CHOOSE_COLUMN" =>
          ok := ChooseColumn(p, selected, a.ctxProjectId, a.ctxBoardId, remote, now);
        case "CHOOSE_ASSIGNEE" =>
          ChooseAssignee(p, selected, remote, now);
        case "CHOOSE_DEADLINE" =>
          ok := ChooseDeadline(p, a.ctxDeadlineChoice, remote, today, now);
        case "CANCEL" =>
          Cancel(p, a.ctxTaskTitle);
        case "FINISH" =>
          Finish(p);
        case _ =>
      }
    }

    /** `mm_actions`: one button press or selection. */
    method HandleAction(a: Action, remote: Remote, today: CivilDate, now: real)
      requires Valid()
      modifies this, store, channels
      ensures Valid()
      ensures Snapshot() == Wizard.HandleAction(old(Snapshot()), teamId, a, remote, today, now)
    {
      if !Accepted(a) {
        return;
      }
      var ok := Dispatch(a, remote, today, now);
      if !ok {
        Emit(Post(a.channelId.value, Some(ActionRoot(a).value), ActionFailed));
      }
    }
  
    // -------------------------------------------------------------------------
    // The cleanup thread
    // -------------------------------------------------------------------------

    /** `auto_finish_dialog(user, root)`. */
    method AutoFinish(key: Key)
      modifies this, store
      ensures Snapshot() == Sweeper.AutoFinish(old(Snapshot()), key)
    {
      var st := store.Current(key);
      var channel := GetTruthy(st, ChannelId);
      if st == map[] || channel.None? {
        return;
      }
      var summary := SummaryOf(st, GetText(st, TaskTitle, Untitled));
      Emit(Post(channel.value, Reply(key), TaskSummary(summary)));
      Emit(Post(channel.value, Reply(key), AutoFinishNote));
      DropState(key);
    }

    /** One pass of `auto_cleanup_loop`; `order` is the order in which the snapshot of the store lists its keys. */
    method Sweep(order: seq<Key>, now: real, timeoutMinutes: int)
      modifies this, store
      ensures Snapshot() == Sweeper.Sweep(old(Snapshot()), order, now, timeoutMinutes)
    {
      var items := store.dialogs;
      var i := 0;
      while i < |order|
        invariant 0 <= i <= |order|
        invariant Snapshot() == SweepFrom(old(Snapshot()), items, order[..i], now, timeoutMinutes)
      {
        assert order[..i + 1][..i] == order[..i];
        var k := order[i];
        if k in items && Due(items[k], now, timeoutMinutes) {
          AutoFinish(k);
        }
        i := i + 1;
      }
      assert order[..i] == order;
    }

    // -------------------------------------------------------------------------
    // The websocket listener
    // -------------------------------------------------------------------------

    method TypedDate(key: Key, channel: string, text: string, remote: Remote, now: real)
      requires text != ""
      modifies this, store
      ensures Snapshot() == Listener.TypedDate(old(Snapshot()), teamId, key, channel, text, remote, now)
    {
      var d := ParseIsoDate(text);
      if d.None? {
        Emit(Post(channel, Reply(key), DateNotUnderstood(text)));
        return;
      }
      WriteState(key, map[Deadline := Day(d.value), DeadlineDisplay := Str(text)], now);
      var st := store.Current(key);
      var title := TitleValue(None, st);
      var target := LastPrompt(st);
      if target.Some? {
        var ok := CreateTaskAndUpdatePost(title, st, key.0, target.value, remote, now);
      } else {
        Emit(Post(channel, Reply(key), CustomDeadlineWithoutPrompt(Render(title))));
      }
    }

    method TypedTitle(key: Key, channel: string, text: string, remote: Remote, now: real)
      requires text != ""
      modifies this, store
      ensures Snapshot() == Listener.TypedTitle(old(Snapshot()), key, channel, text, remote, now)
    {
      WriteState(key, map[TaskTitle := Str(text)], now);
      var ask := GetTruthy(store.Current(key), AskTitlePostId);
      if ask.Some? {
        Emit(Patch(ask.value, CreatingTask(text)));
      }
      var ok := StartTaskCreation(key, channel, text, remote, now);
    }

    method Attachment(key: Key, taskId: string, ev: Posted, remote: Remote, now: real)
      modifies this, store
      ensures Snapshot() == Listener.Attachment(old(Snapshot()), key, taskId, ev, remote, now)
    {
      var text := Strip(ev.message);
      if text != "" {
        Emit(Comment(taskId, text));
      }
      if ev.filesSent || (text != "" && remote.commentAccepted) {
        Emit(React(ev.id.GetOr("")));
        WriteState(key, map[], now);
      }
    }

    /** One `posted` event of the websocket. */
    method HandlePosted(botId: Option<string>, botUsername: string, ev: Posted, remote: Remote, now: real)
      requires Valid()
      modifies this, store, channels
      ensures Valid()
      ensures Snapshot() == Listener.HandlePosted(old(Snapshot()), teamId, botId, botUsername, ev, remote, now)
    {
      var key := (ev.userId, PostedRoot(ev));
      var st := store.Current(key);
      var text := Strip(ev.message);
      if ev.kind == "system_add_to_channel" {
        if Truthful(botId) && ev.addedUserId == botId && ev.channelId != "" {
          Emit(Post(ev.channelId, None, JoinedChannel));
        }
      } else if ev.kind == "system_remove_from_channel" {
        if Truthful(botId) && ev.removedUserId == botId && ev.channelId != "" {
          RemoveDefault(ev.channelId);
        }
      } else if MentionsBot(ev.message, botUsername) {
        var title := ParseCreateCommand(ev.message, botUsername);
        if title.Some? {
          var ok := StartTaskCreation(key, ev.channelId, title.value, remote, now);
        } else {
          Emit(Post(ev.channelId, Reply(key), MainMenu));
        }
      } else if AwaitingDate(st) {
        if text != "" {
          TypedDate(key, ev.channelId, text, remote, now);
        }
      } else if AtStep(st, AskTaskTitleStep) {
        if text != "" {
          TypedTitle(key, ev.channelId, text, remote, now);
        }
      } else if AtStep(st, OptionalAttachStep) {
        var taskId := GetTruthy(st, TaskId);
        if taskId.Some? {
          Attachment(key, taskId.value, ev, remote, now);
        }
      }
    }
  }
}
