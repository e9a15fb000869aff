/**
 * The wizard that creates tasks as functions on a `World`: the interactive-action
 * handler `mm_actions` step by step, `start_task_creation` and
 * `create_task_and_update_post`. Remote answers, the clock (`now`) and
 * today's date are inputs. A handler that reaches a point where the source
 * raises returns `ok == false` with the world as it stood at that point.
 */
module Wizard {
  import opened Wrappers
  import opened Calendar
  import opened Deadline
  import opened Payload
  import opened Access
  import opened Dialogs
  import opened Channels
  import opened Machine

  // ---------------------------------------------------------------------------
  // start_task_creation and what follows a chosen project
  // ---------------------------------------------------------------------------

  /**
   * A project with exactly one board: the board is chosen outright (step
   * `CHOOSE_BOARD`), then its columns are fetched; with columns, the column
   * prompt is posted and its id recorded.
   */
  function OneBoard(w: World, key: Key, channel: string, task: string, board: Entity, remote: Remote, now: real): Run {
    if board.id.None? then Run(w, false)
    else
      var boardTitle := board.title.GetOr("без названия");
      var w1 := SetSt(w, key, map[Step := Str(ChooseBoardStep), BoardId := Str(board.id.value),
                                  BoardTitle := Str(boardTitle)], now);
      if remote.columns.None? then Run(w1, false)
      else if remote.columns.value == [] then Run(Send(w1, Post(channel, Reply(key), NoColumns(boardTitle))), true)
      else
        var columns := remote.columns.value;
        var w2 := SetSt(w1, key, map[ColumnOptions := Titles(OptionTitles(columns))], now);
        var w3 := Send(w2, Post(channel, Reply(key), ColumnPrompt(task, PromptChoices(columns))));
        Run(AddPostId(w3, key, remote.postedId, now), true)
  }

  /**
   * What follows once a project is known (the shared tail of `CHOOSE_PROJECT`
   * and of `start_task_creation` with a default project): no board stops with
   * a notice; one board is chosen outright; several get a board prompt.
   */
  function WithProject(w: World, key: Key, channel: string, task: string, projectTitle: string,
                       boards: seq<Entity>, remote: Remote, now: real): Run {
    if |boards| == 0 then Run(Send(w, Post(channel, Reply(key), NoBoards(projectTitle))), true)
    else if |boards| == 1 then OneBoard(w, key, channel, task, boards[0], remote, now)
    else
      var w1 := SetSt(w, key, map[BoardOptions := Titles(OptionTitles(boards))], now);
      var w2 := Send(w1, Post(channel, Reply(key), BoardPrompt(task, PromptChoices(boards))));
      Run(AddPostId(w2, key, remote.postedId, now), true)
  }

  /** The record `start_task_creation` writes when it goes straight to a default project. */
  function DefaultStart(key: Key, channel: string, title: string, projectId: string, projectTitle: string): Dialog {
    map[Step := Str(ChooseProjectStep), TaskTitle := Str(title), RootPostId := Str(key.1),
        ChannelId := Str(channel), ProjectId := Str(projectId), ProjectTitle := Str(projectTitle),
        PostIds := Ids([])]
  }

  /** The record `start_task_creation` puts in place when the user has to pick the project. */
  function PickStart(key: Key, channel: string, title: string, allowed: seq<Project>): Dialog {
    map[Step := Str(ChooseProjectStep), TaskTitle := Str(title), RootPostId := Str(key.1),
        ChannelId := Str(channel), PostIds := Ids([]),
        ProjectOptions := Titles(OptionTitles(EntitiesOf(allowed)))]
  }

  /** The channel's default project, if the user may use it. */
  function DefaultFor(w: World, channel: string, allowed: seq<Project>): Option<Project> {
    if channel in w.defaults then DefaultAmong(allowed, w.defaults[channel].projectId) else None
  }

  /**
   * `start_task_creation(user, channel, root, title)` with `key == (user, root)`:
   * no allowed project gets a refusal; the channel's default project, when
   * the user may use it, is taken at once; otherwise the dialog record is
   * replaced and the project prompt posted and recorded.
   */
  function StartTaskCreation(w: World, key: Key, channel: string, title: string, remote: Remote, now: real): Run {
    StartFor(w, key, channel, title, AllowedSpec(remote.actorEmail, remote.roster, remote.projects), remote, now)
  }

  /** `start_task_creation` once the projects the user may use, `allowed`, are known. */
  function StartFor(w: World, key: Key, channel: string, title: string, allowed: seq<Project>, remote: Remote, now: real): Run {
    if allowed == [] then Run(Send(w, Post(channel, Reply(key), NoAccess)), true)
    else
      match DefaultFor(w, channel, allowed)
      case Some(p) =>
        var projectTitle := p.entity.title.GetOr("без названия");
        var w1 := SetSt(w, key, DefaultStart(key, channel, title, p.entity.id.value, projectTitle), now);
        if remote.boards.None? then Run(w1, false)
        else WithProject(w1, key, channel, title, projectTitle, remote.boards.value, remote, now)
      case None =>
        var w1 := Put(w, key, PickStart(key, channel, title, allowed));
        var w2 := Send(w1, Post(channel, Reply(key), ProjectPrompt(title, PromptChoices(EntitiesOf(allowed)))));
        Run(SetSt(w2, key, map[PostIds := Ids([remote.postedId])], now), true)
  }

  // ---------------------------------------------------------------------------
  // create_task_and_update_post
  // ---------------------------------------------------------------------------

  /**
   * What follows a created task with link `url`: the post with the deadline
   * buttons is patched; when the record names a channel, the "task created"
   * message is posted and joins the service posts; the record under
   * `(user, state's root)` moves to `OPTIONAL_ATTACH` with the YouGile task's id,
   * link and deadline.
   */
  function AfterCreation(w: World, title: Value, state: Dialog, user: string, post: string,
                         taskId: Option<string>, url: string, deadlineStr: string, postedId: string, now: real): World
  {
    var root := GetStr(state, RootPostId);
    var channel := GetStr(state, ChannelId);
    var w1 := Send(w, Patch(post, DeadlineSet(Render(title), deadlineStr)));
    var w2 := if Truthful(channel) then Send(w1, Post(channel.value, RootOf(root), TaskCreated(Render(title), url))) else w1;
    var ids := if Truthful(channel) then PostIdsOf(state) + [postedId] else PostIdsOf(state);
    SetSt(w2, (user, root.GetOr("")), AttachData(taskId, url, deadlineStr, ids), now)
  }

  /**
   * `create_task_and_update_post(title, state, user, post)`: the YouGile task is
   * created from the record `state`, and once it exists the rest follows
   * with the YouGile task's link and the deadline text of the record.
   */
  function CreateTaskAndUpdatePost(w: World, teamId: string, title: Value, state: Dialog, user: string,
                                   post: string, remote: Remote, now: real): Run
  {
    var w1 := Send(w, CreateTask(BodyFor(title, state, remote.author)));
    match remote.creation
    case CreateFailed => Run(w1, false)
    case Created(taskId, taskProjectId) =>
      var url := TaskLink(teamId, GetStr(state, ProjectTitle), taskProjectId);
      Run(AfterCreation(w1, title, state, user, post, taskId, url, DeadlineStrOf(state), remote.postedId, now), true)
  }

  // ---------------------------------------------------------------------------
  // mm_actions
  // ---------------------------------------------------------------------------

  /** One press of an interactive button or select: the request's `context` and top-level fields. */
  datatype Action = Action(
    step: Option<string>,
    ctxUserId: Option<string>, userId: Option<string>,
    postId: Option<string>, channelId: Option<string>,
    ctxRootPostId: Option<string>, rootId: Option<string>,
    ctxTaskTitle: Option<string>, ctxProjectId: Option<string>, ctxBoardId: Option<string>,
    ctxDeadlineChoice: Option<string>,
    ctxSelected: Raw, dataSelected: Raw)

  /** `context.get("user_id") or data.get("user_id")`. */
  function ActionUser(a: Action): Option<string> {
    Or(a.ctxUserId, a.userId)
  }

  /** `context.get("root_post_id") or data.get("root_id") or post_id`. */
  function ActionRoot(a: Action): Option<string> {
    Or(Or(a.ctxRootPostId, a.rootId), a.postId)
  }

  /** The handler goes on only when step, user, root, post and channel are all truthy. */
  predicate Accepted(a: Action) {
    Truthful(a.step) && Truthful(ActionUser(a)) && Truthful(ActionRoot(a)) &&
    Truthful(a.postId) && Truthful(a.channelId)
  }

  /** What every step works with: the dialog key, the pressed post, the channel and the YouGile task title. */
  datatype Press = Press(key: Key, post: string, channel: string, title: Value)

  function PressOf(w: World, a: Action): (p: Press)
    requires Accepted(a)
    ensures p.key == (ActionUser(a).value, ActionRoot(a).value)
    ensures p.post == a.postId.value && p.channel == a.channelId.value
    ensures p.title == TitleValue(a.ctxTaskTitle, Cur(w, p.key))
  {
    var key := (ActionUser(a).value, ActionRoot(a).value);
    Press(key, a.postId.value, a.channelId.value, TitleValue(a.ctxTaskTitle, Cur(w, key)))
  }

  /** The reply target of a press: the thread of its root post. */
  function Thread(p: Press): Option<string> {
    Some(p.key.1)
  }

  /** `MENU_CREATE_TASK`: the dialog waits for a title; the menu post asks for it and is a service post. */
  function MenuCreateTask(w: World, p: Press, now: real): World {
    var w1 := SetSt(w, p.key, map[Step := Str(AskTaskTitleStep), ChannelId := Str(p.channel), TaskTitle := Null,
                                  AskTitlePostId := Str(p.post), PostIds := Ids([p.post])], now);
    Send(w1, Patch(p.post, AskTitle))
  }

  /** `MENU_CHANGE_DEFAULT_PROJECT` (`fromMenu`) and `DEFAULT_PROJECT_PROMPT_YES`: offer the allowed projects. */
  function OfferDefaults(w: World, p: Press, fromMenu: bool, remote: Remote, now: real): World {
    var allowed := AllowedSpec(remote.actorEmail, remote.roster, remote.projects);
    if allowed == [] then Send(w, Post(p.channel, Thread(p), NoProjectsFound))
    else
      var es := EntitiesOf(allowed);
      var step := if fromMenu then MenuChangeDefaultProjectStep else DefaultProjectSelectStep;
      var w1 := SetSt(w, p.key, map[Step := Str(step), ChannelId := Str(p.channel),
                                    ProjectOptions := Titles(OptionTitles(es))], now);
      var current := if p.channel in w.defaults then w.defaults[p.channel].projectTitle else "не установлен";
      var msg := if fromMenu then DefaultProjectMenu(current, DefaultProjectChoices(es, false))
                 else DefaultProjectPrompt(DefaultProjectChoices(es, true));
      Send(w1, Patch(p.post, msg))
  }

  /**
   * `MENU_DEFAULT_PROJECT_SET` (`fromMenu`) and `DEFAULT_PROJECT_SET`: "__none__"
   * drops the channel's default, another id stores it with the title the
   * dialog offered; both close the dialog.
   */
  function SaveDefault(w: World, p: Press, fromMenu: bool, selected: Option<string>): World {
    if !Truthful(selected) then w
    else if selected.value == NoneValue then
      Clear(Send(DropDefault(w, p.channel), Patch(p.post, DefaultProjectOff(fromMenu))), p.key)
    else
      var title := TitleIn(Cur(w, p.key), ProjectOptions, selected.value, "без названия");
      Clear(Send(SetDefault(w, p.channel, selected.value, title), Patch(p.post, DefaultProjectSaved(fromMenu, title))), p.key)
  }

  /** `CHOOSE_PROJECT`: the chosen project is stored, then its boards decide what follows. */
  function ChooseProject(w: World, p: Press, selected: Option<string>, remote: Remote, now: real): Run {
    if !Truthful(selected) then Run(w, true)
    else
      var projectId := selected.value;
      var projectTitle := TitleIn(Cur(w, p.key), ProjectOptions, projectId, "без названия");
      var w1 := SetSt(w, p.key, map[Step := Str(ChooseProjectStep), TaskTitle := p.title, ProjectId := Str(projectId),
                                    ProjectTitle := Str(projectTitle), ChannelId := Str(p.channel)], now);
      if remote.boards.None? then Run(w1, false)
      else
        var task := Render(p.title);
        var w2 := Send(w1, Patch(p.post, ProjectChosen(task, projectTitle)));
        WithProject(w2, p.key, p.channel, task, projectTitle, remote.boards.value, remote, now)
  }

  /** `CHOOSE_BOARD`: the board is stored; with columns, the column prompt is posted and recorded. */
  function ChooseBoard(w: World, p: Press, selected: Option<string>, ctxProjectId: Option<string>,
                       remote: Remote, now: real): Run {
    if !Truthful(selected) then Run(w, true)
    else
      var boardId := selected.value;
      var state := Cur(w, p.key);
      var projectId := Or(GetStr(state, ProjectId), ctxProjectId);
      var boardTitle := TitleIn(state, BoardOptions, boardId, "без названия");
      var w1 := SetSt(w, p.key, map[Step := Str(ChooseBoardStep), ProjectId := OptValue(projectId),
                                    BoardId := Str(boardId), BoardTitle := Str(boardTitle)], now);
      if remote.columns.None? then Run(w1, false)
      else if remote.columns.value == [] then Run(Send(w1, Patch(p.post, NoColumns(boardTitle))), true)
      else
        var columns := remote.columns.value;
        var task := Render(p.title);
        var w2 := SetSt(w1, p.key, map[ColumnOptions := Titles(OptionTitles(columns))], now);
        var w3 := Send(w2, Patch(p.post, BoardChosen(task, boardTitle)));
        var w4 := Send(w3, Post(p.channel, Thread(p), ColumnPrompt(task, PromptChoices(columns))));
        Run(AddPostId(w4, p.key, remote.postedId, now), true)
  }

  /** `CHOOSE_COLUMN`: the column is stored and the assignee prompt posted and recorded. */
  function ChooseColumn(w: World, p: Press, selected: Option<string>, ctxProjectId: Option<string>,
                        ctxBoardId: Option<string>, remote: Remote, now: real): Run {
    if !Truthful(selected) then Run(w, true)
    else
      var columnId := selected.value;
      var state := Cur(w, p.key);
      var projectId := Or(GetStr(state, ProjectId), ctxProjectId);
      var boardId := Or(GetStr(state, BoardId), ctxBoardId);
      var columnTitle := TitleIn(state, ColumnOptions, columnId, "без названия");
      var w1 := SetSt(w, p.key, map[Step := Str(ChooseColumnStep), ProjectId := OptValue(projectId),
                                    BoardId := OptValue(boardId), ColumnId := Str(columnId)], now);
      if remote.members.None? || AssigneeChoices(remote.members.value).None? then Run(w1, false)
      else
        var task := Render(p.title);
        var w2 := Send(w1, Patch(p.post, ColumnChosen(task, columnTitle)));
        var w3 := Send(w2, Post(p.channel, Thread(p), AssigneePrompt(task, AssigneeChoices(remote.members.value).value)));
        Run(AddPostId(w3, p.key, remote.postedId, now), true)
  }

  /**
   * `CHOOSE_ASSIGNEE`: the assignee and the name shown for it are stored (the
   * id itself when the member listing fails) and the deadline prompt is posted
   * and recorded.
   */
  function ChooseAssignee(w: World, p: Press, selected: Option<string>, remote: Remote, now: real): World {
    if !Truthful(selected) then w
    else
      var assigneeId := selected.value;
      var w1 := SetSt(w, p.key, map[Step := Str(ChooseAssigneeStep), AssigneeId := Str(assigneeId)], now);
      var name := if remote.members.Some? then NameFor(remote.members.value, assigneeId) else assigneeId;
      var w2 := SetSt(w1, p.key, map[AssigneeName := Str(name)], now);
      var task := Render(p.title);
      var w3 := Send(w2, Patch(p.post, AssigneeChosen(task, name)));
      var w4 := Send(w3, Post(p.channel, Thread(p), DeadlinePrompt(task)));
      AddPostId(w4, p.key, remote.postedId, now)
  }

  /**
   * `CHOOSE_DEADLINE`: the choice is stored; "custom" asks for a date in the
   * thread, "none" and the named offsets store the deadline and create the YouGile task.
   */
  function ChooseDeadline(w: World, teamId: string, p: Press, choice: Option<string>, remote: Remote,
                          today: CivilDate, now: real): Run {
    var w1 := SetSt(w, p.key, map[Step := Str(ChooseDeadlineStep), DeadlineChoice := OptValue(choice)], now);
    if choice == Some("custom") then Run(Send(w1, Patch(p.post, CustomDatePrompt(Render(p.title)))), true)
    else if choice == Some("none") then
      var w2 := SetSt(w1, p.key, map[Deadline := Null], now);
      CreateTaskAndUpdatePost(w2, teamId, p.title, Cur(w2, p.key), p.key.0, p.post, remote, now)
    else
      match CalcDeadline(choice, today)
      case None => Run(w1, false)
      case Some(d) =>
        var w2 := SetSt(w1, p.key, map[Deadline := Day(d)], now);
        CreateTaskAndUpdatePost(w2, teamId, p.title, Cur(w2, p.key), p.key.0, p.post, remote, now)
  }

  /** The title the cancel notice names: none for the default title. */
  function CancelledTitle(ctxTitle: Option<string>, state: Dialog): (r: Option<string>)
    ensures r.Some? ==> r.value != "" && r.value != Untitled
  {
    var t := Or(Or(ctxTitle, GetTruthy(state, TaskTitle)), Some(Untitled)).value;
    if t == Untitled || t == "" then None else Some(t)
  }

  /**
   * `CANCEL`: every service post of the dialog is deleted, in order, the
   * record is dropped, and the notice goes to the record's channel.
   */
  function Cancel(w: World, p: Press, ctxTitle: Option<string>): World {
    var state := Cur(w, p.key);
    var channel := GetText(state, ChannelId, p.channel);
    var w1 := w.(effects := w.effects + Deletes(PostIdsOf(state)));
    Send(Clear(w1, p.key), Post(channel, Thread(p), Cancelled(CancelledTitle(ctxTitle, state))))
  }

  /** `FINISH`: the summary goes to the thread and to the channel, the post is closed and the record dropped. */
  function Finish(w: World, p: Press): World {
    var state := Cur(w, p.key);
    var channel := GetText(state, ChannelId, p.channel);
    var summary := SummaryOf(state, Render(p.title));
    var w1 := Send(Send(w, Post(channel, Thread(p), TaskSummary(summary))), Post(channel, None, TaskSummary(summary)));
    Clear(Send(w1, Patch(p.post, DialogFinished(Render(p.title)))), p.key)
  }

  /** The step a press names, run on the world. */
  function Dispatch(w: World, teamId: string, a: Action, remote: Remote, today: CivilDate, now: real): Run
    requires Accepted(a)
  {
    var p := PressOf(w, a);
    var selected := ExtractSelectedValue(a.ctxSelected, a.dataSelected);
    match a.step.value
    case "MENU_CREATE_TASK" => Run(MenuCreateTask(w, p, now), true)
    case "MENU_SHOW_SHORTCUTS" => Run(Send(w, Post(p.channel, Thread(p), Shortcuts)), true)
    case "MENU_CHANGE_DEFAULT_PROJECT" => Run(OfferDefaults(w, p, true, remote, now), true)
    case "MENU_DEFAULT_PROJECT_CANCEL" => Run(Clear(Send(w, Patch(p.post, DefaultProjectKept)), p.key), true)
    case "MENU_DEFAULT_PROJECT_SET" => Run(SaveDefault(w, p, true, selected), true)
    case "MENU_CANCEL" => Run(Clear(Send(w, Patch(p.post, DialogClosed)), p.key), true)
    case "DEFAULT_PROJECT_PROMPT_NO" =>
      Run(Clear(Send(DropDefault(w, p.channel), Patch(p.post, DefaultProjectDeclined)), p.key), true)
    case "DEFAULT_PROJECT_PROMPT_YES" => Run(OfferDefaults(w, p, false, remote, now), true)
    case "DEFAULT_PROJECT_SET" => Run(SaveDefault(w, p, false, selected), true)
    case "CHOOSE_PROJECT" => ChooseProject(w, p, selected, remote, now)
    case "CHOOSE_BOARD" => ChooseBoard(w, p, selected, a.ctxProjectId, remote, now)
    case "CHOOSE_COLUMN" => ChooseColumn(w, p, selected, a.ctxProjectId, a.ctxBoardId, remote, now)
    case "CHOOSE_ASSIGNEE" => Run(ChooseAssignee(w, p, selected, remote, now), true)
    case "CHOOSE_DEADLINE" => ChooseDeadline(w, teamId, p, a.ctxDeadlineChoice, remote, today, now)
    case "CANCEL" => Run(Cancel(w, p, a.ctxTaskTitle), true)
    case "FINISH" => Run(Finish(w, p), true)
    case _ => Run(w, true)
  }

  /**
   * `mm_actions`: a press that lacks one of its fields changes nothing; a step
   * that raises leaves what it did so far and posts an error notice in the
   * thread.
   */
  function HandleAction(w: World, teamId: string, a: Action, remote: Remote, today: CivilDate, now: real): World {
    if !Accepted(a) then w
    else
      var run := Dispatch(w, teamId, a, remote, today, now);
      if run.ok then run.w else Send(run.w, Post(a.channelId.value, Some(ActionRoot(a).value), ActionFailed))
  }
}
