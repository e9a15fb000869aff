/**
 * The websocket listener (`run_ws_bot`): what one `posted` event does. The
 * bot being added to or removed from a channel, a mention of the bot, a
 * custom deadline typed in a thread, a task title typed after the menu, and
 * comments sent to the created task are told apart in that order.
 */
module Listener {
  import opened Wrappers
  import opened Text
  import opened Calendar
  import opened Command
  import opened Dialogs
  import opened Machine
  import opened Wizard

  /** The fields of a posted message the listener reads; `filesSent` says whether any attached file reached the YouGile task's chat. */
  datatype Posted = Posted(
    kind: string,
    addedUserId: Option<string>,
    removedUserId: Option<string>,
    channelId: string,
    userId: string,
    message: string,
    rootId: Option<string>,
    id: Option<string>,
    filesSent: bool)

  /** `post.get("root_id") or post.get("id")`, with `None` written "". */
  function PostedRoot(ev: Posted): string {
    Or(ev.rootId, ev.id).GetOr("")
  }

  /** The dialog waits for a typed deadline. */
  predicate AwaitingDate(st: Dialog) {
    AtStep(st, ChooseDeadlineStep) && DeadlineChoice in st && st[DeadlineChoice] == Str("custom")
  }

  /** `post_ids[-1] if post_ids else None`, when truthy. */
  function LastPrompt(st: Dialog): (r: Option<string>)
    ensures r.Some? ==> r.value != "" && PostIdsOf(st) != [] && r.value == PostIdsOf(st)[|PostIdsOf(st)| - 1]
  {
    var ids := PostIdsOf(st);
    if ids != [] && ids[|ids| - 1] != "" then Some(ids[|ids| - 1]) else None
  }

  /**
   * A date typed while the dialog waits for one: an unreadable date gets a
   * notice; a date is stored with the text as typed and the YouGile task is created
   * from the latest prompt, or a bare confirmation is posted when there is none.
   */
  function TypedDate(w: World, teamId: string, key: Key, channel: string, text: string, remote: Remote, now: real): World
    requires text != ""
  {
    match ParseIsoDate(text)
    case None => Send(w, Post(channel, Reply(key), DateNotUnderstood(text)))
    case Some(d) =>
      var w1 := SetSt(w, key, map[Deadline := Day(d), DeadlineDisplay := Str(text)], now);
      var st := Cur(w1, key);
      var title := TitleValue(None, st);
      match LastPrompt(st)
      case Some(target) => CreateTaskAndUpdatePost(w1, teamId, title, st, key.0, target, remote, now).w
      case None => Send(w1, Post(channel, Reply(key), CustomDeadlineWithoutPrompt(Render(title))))
  }

  /** A title typed after `MENU_CREATE_TASK`: it is stored, the question is patched, and creation starts. */
  function TypedTitle(w: World, key: Key, channel: string, text: string, remote: Remote, now: real): World
    requires text != ""
  {
    var w1 := SetSt(w, key, map[TaskTitle := Str(text)], now);
    var ask := GetTruthy(Cur(w1, key), AskTitlePostId);
    var w2 := if ask.Some? then Send(w1, Patch(ask.value, CreatingTask(text))) else w1;
    StartTaskCreation(w2, key, channel, text, remote, now).w
  }

  /**
   * A message in the thread of a created task: its text goes to the YouGile task's
   * chat; when anything reached the chat, the message gets a reaction and the
   * dialog's idle clock restarts.
   */
  function Attachment(w: World, key: Key, taskId: string, ev: Posted, remote: Remote, now: real): World {
    var text := Strip(ev.message);
    var w1 := if text != "" then Send(w, Comment(taskId, text)) else w;
    if ev.filesSent || (text != "" && remote.commentAccepted) then
      SetSt(Send(w1, React(ev.id.GetOr(""))), key, map[], now)
    else w1
  }

  /** One `posted` event. */
  function HandlePosted(w: World, teamId: string, botId: Option<string>, botUsername: string, ev: Posted,
                        remote: Remote, now: real): World {
    var key := (ev.userId, PostedRoot(ev));
    var st := Cur(w, key);
    var text := Strip(ev.message);
    if ev.kind == "system_add_to_channel" then
      if Truthful(botId) && ev.addedUserId == botId && ev.channelId != "" then
        Send(w, Post(ev.channelId, None, JoinedChannel))
      else w
    else if ev.kind == "system_remove_from_channel" then
      if Truthful(botId) && ev.removedUserId == botId && ev.channelId != "" then DropDefault(w, ev.channelId)
      else w
    else if MentionsBot(ev.message, botUsername) then
      match ParseCreateCommand(ev.message, botUsername)
      case Some(title) => StartTaskCreation(w, key, ev.channelId, title, remote, now).w
      case None => Send(w, Post(ev.channelId, Reply(key), MainMenu))
    else if AwaitingDate(st) then
      if text == "" then w else TypedDate(w, teamId, key, ev.channelId, text, remote, now)
    else if AtStep(st, AskTaskTitleStep) then
      if text == "" then w else TypedTitle(w, key, ev.channelId, text, remote, now)
    else if AtStep(st, OptionalAttachStep) then
      match GetTruthy(st, TaskId)
      case None => w
      case Some(taskId) => Attachment(w, key, taskId, ev, remote, now)
    else w
  }
}
