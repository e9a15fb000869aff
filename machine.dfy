/**
 * The bot's observable state and what it does to it. A `World` is the dialog
 * store, the channel-to-default-project map and the list of calls the bot
 * has made on Mattermost and YouGile, in order. The handlers of the other
 * modules are functions from one `World` to the next, built from the
 * primitives here (`set_state`, `clear_state`, the direct `STATE[key] = ...`,
 * the channel-map writes, and one call sent).
 */
module Machine {
  import opened Wrappers
  import opened Text
  import opened Calendar
  import opened Deadline
  import opened Slug
  import opened Payload
  import opened Access
  import opened Dialogs
  import opened Channels

  // ---------------------------------------------------------------------------
  // Steps
  // ---------------------------------------------------------------------------

  const AskTaskTitleStep := "ASK_TASK_TITLE"
  const ChooseProjectStep := "CHOOSE_PROJECT"
  const ChooseBoardStep := "CHOOSE_BOARD"
  const ChooseColumnStep := "CHOOSE_COLUMN"
  const ChooseAssigneeStep := "CHOOSE_ASSIGNEE"
  const ChooseDeadlineStep := "CHOOSE_DEADLINE"
  const OptionalAttachStep := "OPTIONAL_ATTACH"
  const MenuChangeDefaultProjectStep := "MENU_CHANGE_DEFAULT_PROJECT"
  const DefaultProjectSelectStep := "DEFAULT_PROJECT_SELECT"

  /** The title a dialog falls back to. */
  const Untitled := "Без названия"

  // ---------------------------------------------------------------------------
  // What the bot sends
  // ---------------------------------------------------------------------------

  /** The messages the bot posts or patches in, by what they say (their wording is not modelled). */
  datatype Msg =
    | AskTitle
    | Shortcuts
    | NoProjectsFound
    | DefaultProjectMenu(current: string, options: seq<Choice>)
    | DefaultProjectKept
    | DefaultProjectPrompt(options: seq<Choice>)
    | DefaultProjectOff(fromMenu: bool)
    | DefaultProjectSaved(fromMenu: bool, title: string)
    | DefaultProjectDeclined
    | DialogClosed
    | ProjectPrompt(task: string, options: seq<Choice>)
    | ProjectChosen(task: string, project: string)
    | NoBoards(project: string)
    | BoardPrompt(task: string, options: seq<Choice>)
    | BoardChosen(task: string, board: string)
    | NoColumns(board: string)
    | ColumnPrompt(task: string, options: seq<Choice>)
    | ColumnChosen(task: string, column: string)
    | AssigneePrompt(task: string, options: seq<Choice>)
    | AssigneeChosen(task: string, assignee: string)
    | DeadlinePrompt(task: string)
    | CustomDatePrompt(task: string)
    | DeadlineSet(task: string, deadline: string)
    | TaskCreated(task: string, url: string)
    | Cancelled(cancelled: Option<string>)
    | TaskSummary(text: string)
    | AutoFinishNote
    | DialogFinished(task: string)
    | ActionFailed
    | NoAccess
    | MainMenu
    | JoinedChannel
    | DateNotUnderstood(text: string)
    | CustomDeadlineWithoutPrompt(task: string)
    | CreatingTask(task: string)

  /** A call the bot makes on Mattermost or YouGile. */
  datatype Effect =
    | Post(channel: string, root: Option<string>, msg: Msg)
    | Patch(post: string, msg: Msg)
    | DeletePost(post: string)
    | CreateTask(body: TaskBody)
    | Comment(taskId: string, text: string)
    | React(post: string)

  /** One delete per id, in order. */
  function Deletes(ids: seq<string>): (r: seq<Effect>)
    ensures |r| == |ids|
    ensures forall i :: 0 <= i < |ids| ==> r[i] == DeletePost(ids[i])
  {
    seq(|ids|, i requires 0 <= i < |ids| => DeletePost(ids[i]))
  }

  // ---------------------------------------------------------------------------
  // Remote answers
  // ---------------------------------------------------------------------------

  /** The Mattermost profile fields used in the YouGile task description. */
  datatype Author = Author(firstName: string, lastName: string, username: string)

  /** The outcome of `POST /tasks` (with the follow-up read of the YouGile task's project-local id). */
  datatype Creation = CreateFailed | Created(taskId: Option<string>, taskProjectId: Option<string>)

  /**
   * What the remote services answer while one event is handled. `None` for a
   * listing is a request that raised; `postedId` is the id Mattermost gives
   * the prompt the handler posts; `commentAccepted` says whether YouGile took
   * a text comment.
   */
  datatype Remote = Remote(
    actorEmail: Option<string>,
    roster: seq<Account>,
    projects: seq<Project>,
    boards: Option<seq<Entity>>,
    columns: Option<seq<Entity>>,
    members: Option<seq<Member>>,
    author: Author,
    creation: Creation,
    postedId: string,
    commentAccepted: bool)

  // ---------------------------------------------------------------------------
  // Pure helpers
  // ---------------------------------------------------------------------------

  /** Python's `a or b` on optional strings. */
  function Or(a: Option<string>, b: Option<string>): (r: Option<string>)
    ensures a.Some? && a.value != "" ==> r == a
    ensures (a.None? || a.value == "") ==> r == b
  {
    if a.Some? && a.value != "" then a else b
  }

  /** A present, non-empty string. */
  predicate Truthful(o: Option<string>) {
    o.Some? && o.value != ""
  }

  /** `root_id=root`: a falsy root posts at the top of the channel. */
  function RootOf(root: Option<string>): (r: Option<string>)
    ensures r.Some? <==> Truthful(root)
    ensures r.Some? ==> r == root
  {
    if Truthful(root) then root else None
  }

  /** Where a dialog's replies go: into the thread of its root post, or the channel when the root is empty. */
  function Reply(key: Key): (r: Option<string>)
    ensures key.1 != "" ==> r == Some(key.1)
  {
    RootOf(Some(key.1))
  }

  /** An optional string as a stored value: `None` is `Null`. */
  function OptValue(o: Option<string>): (v: Value)
    ensures o.Some? ==> v == Str(o.value)
    ensures o.None? ==> v == Null
  {
    if o.Some? then Str(o.value) else Null
  }

  /** The YouGile entities of a list of projects. */
  function EntitiesOf(ps: seq<Project>): (es: seq<Entity>)
    ensures |es| == |ps| && forall i :: 0 <= i < |ps| ==> es[i] == ps[i].entity
  {
    seq(|ps|, i requires 0 <= i < |ps| => ps[i].entity)
  }

  /** `(first.strip() + " " + last.strip()).strip() or username`. */
  function FullName(a: Author): (r: string)
    ensures r == "" ==> a.username == ""
    ensures Strip(a.firstName) == "" && Strip(a.lastName) == "" ==> r == a.username
  {
    var n := Strip(Strip(a.firstName) + " " + Strip(a.lastName));
    if n != "" then n else a.username
  }

  /** The YouGile task description `create_task_and_update_post` writes. */
  function Description(a: Author): string {
    "Создано из Loop пользователем " + FullName(a) + " (@" + a.username + ")"
  }

  const YougileBase := "https://ru.yougile.com/"

  /** The team's page on YouGile. */
  function TeamPage(teamId: string): string {
    YougileBase + ("team/" + teamId)
  }

  /** The part of a task link after the site's address. */
  function LinkPath(teamId: string, slug: string, taskProjectId: Option<string>): string {
    if teamId != "" && slug != "" && Truthful(taskProjectId) then
      "team/" + teamId + "/" + slug + "#" + taskProjectId.value
    else if teamId != "" then "team/" + teamId
    else ""
  }

  /**
   * The YouGile task link: team, project slug and the YouGile task's project-local id when all
   * are known, else the team page, else the site; every link points into YouGile.
   */
  function TaskLink(teamId: string, projectTitle: Option<string>, taskProjectId: Option<string>): (r: string)
    ensures |YougileBase| <= |r| && r[..|YougileBase|] == YougileBase
    ensures teamId == "" ==> r == YougileBase
    ensures teamId != "" && (!Truthful(projectTitle) || !Truthful(taskProjectId)) ==> r == TeamPage(teamId)
    ensures teamId != "" && Truthful(projectTitle) && SlugifyTitle(projectTitle) == "" ==> r == TeamPage(teamId)
    ensures teamId != "" && Truthful(projectTitle) && Truthful(taskProjectId) && SlugifyTitle(projectTitle) != "" ==>
      r == YougileBase + ("team/" + teamId + "/" + SlugifyTitle(projectTitle) + "#" + taskProjectId.value)
  {
    var slug := if Truthful(projectTitle) then SlugifyTitle(projectTitle) else "";
    var path := LinkPath(teamId, slug, taskProjectId);
    assert (YougileBase + path)[..|YougileBase|] == YougileBase;
    YougileBase + path
  }

  /** With a team, a slug and an id, the link ends in the id after its only '#'. */
  lemma TaskLinkFragment(teamId: string, title: string, taskProjectId: string)
    requires teamId != "" && taskProjectId != ""
    requires SlugifyTitle(Some(title)) != ""
    requires '#' !in teamId && '#' !in SlugifyTitle(Some(title))
    ensures var r := TaskLink(teamId, Some(title), Some(taskProjectId));
      var k := |r| - |taskProjectId| - 1;
      0 <= k && r[k] == '#' && r[k + 1..] == taskProjectId && '#' !in r[..k]
  {
    PathFragment(teamId, SlugifyTitle(Some(title)), taskProjectId);
  }

  /** The fixed parts of a link hold no '#'. */
  lemma LinkLiterals()
    ensures '#' !in YougileBase && '#' !in "team/" && '#' !in "/"
  {
  }

  /** `TaskLinkFragment` for any slug. */
  lemma PathFragment(teamId: string, slug: string, id: string)
    requires teamId != "" && slug != "" && id != ""
    requires '#' !in teamId && '#' !in slug
    ensures var r := YougileBase + LinkPath(teamId, slug, Some(id));
      var k := |r| - |id| - 1;
      0 <= k && r[k] == '#' && r[k + 1..] == id && '#' !in r[..k]
  {
    LinkLiterals();
    var head := YougileBase + ("team/" + teamId + "/" + slug);
    assert '#' !in head;
    assert YougileBase + LinkPath(teamId, slug, Some(id)) == head + ("#" + id);
    FragmentAfter(head, id);
  }

  /** A '#'-free head followed by '#' and an id: the id is what follows the only '#'. */
  lemma FragmentAfter(head: string, id: string)
    requires '#' !in head
    ensures var r := head + ("#" + id);
      var k := |r| - |id| - 1;
      k == |head| && r[k] == '#' && r[k + 1..] == id && r[..k] == head
  {
    var r := head + ("#" + id);
    assert r[|head|..] == "#" + id;
  }

  /** The link line of a summary: present exactly when there is a link. */
  function LinkLine(url: string): string {
    if url != "" then "\nСсылка: " + url else ""
  }

  /** `part` occurs in `s` as a contiguous piece. */
  ghost predicate Occurs(part: string, s: string) {
    exists pre, post :: s == pre + part + post
  }

  /** The opening of a summary, up to the project's name. */
  function SummaryHead(title: string): string {
    "Задача \"" + title + "\" создана в проекте: "
  }

  const BoardCaption := ", доска: "
  const AssigneeCaption := ", ответственный: "
  const DeadlineCaption := ", дедлайн: "

  /** The line of a summary, before the link. */
  function SummaryLine(title: string, project: string, board: string, assignee: string, deadline: string): string {
    SummaryHead(title) + project + BoardCaption + board + AssigneeCaption + assignee + DeadlineCaption + deadline + "."
  }

  /** Each value of a line of captioned values occurs between its caption and the next one. */
  lemma CaptionedParts(h: string, p: string, c1: string, b: string, c2: string, a: string, c3: string, d: string, e: string)
    ensures var line := h + p + c1 + b + c2 + a + c3 + d + e;
      && Occurs(h + p + c1, line) && Occurs(c1 + b + c2, line)
      && Occurs(c2 + a + c3, line) && Occurs(c3 + d + e, line)
      && |h| <= |line| && line[..|h|] == h
  {
    var line := h + p + c1 + b + c2 + a + c3 + d + e;
    assert line == [] + (h + p + c1) + (b + c2 + a + c3 + d + e);
    assert line == (h + p) + (c1 + b + c2) + (a + c3 + d + e);
    assert line == (h + p + c1 + b) + (c2 + a + c3) + (d + e);
    assert line == (h + p + c1 + b + c2 + a) + (c3 + d + e) + [];
    assert line == h + (p + c1 + b + c2 + a + c3 + d + e);
  }

  /**
   * `build_task_summary`: one line naming the YouGile task and its placement, then the link when
   * there is one. The line opens with the quoted title and names the project, the board, the
   * assignee and the deadline, each after its own caption.
   */
  function SummaryText(title: string, project: string, board: string, assignee: string, deadline: string, url: string): (r: string)
    ensures |LinkLine(url)| <= |r| && r[|r| - |LinkLine(url)|..] == LinkLine(url)
    ensures |SummaryHead(title)| <= |r| && r[..|SummaryHead(title)|] == SummaryHead(title)
    ensures Occurs(SummaryHead(title) + project + BoardCaption, r)
    ensures Occurs(BoardCaption + board + AssigneeCaption, r)
    ensures Occurs(AssigneeCaption + assignee + DeadlineCaption, r)
    ensures Occurs(DeadlineCaption + deadline + ".", r)
  {
    var line := SummaryLine(title, project, board, assignee, deadline);
    CaptionedParts(SummaryHead(title), project, BoardCaption, board, AssigneeCaption, assignee, DeadlineCaption, deadline, ".");
    OccursInLine(line, LinkLine(url));
    assert (line + LinkLine(url))[|line|..] == LinkLine(url);
    line + LinkLine(url)
  }

  /** What occurs in a line occurs in the line followed by anything. */
  lemma OccursInLine(line: string, tail: string)
    ensures forall part :: Occurs(part, line) ==> Occurs(part, line + tail)
  {
    forall part | Occurs(part, line) ensures Occurs(part, line + tail) {
      var pre, post :| line == pre + part + post;
      assert line + tail == pre + part + (post + tail);
    }
  }

  /** The summary of a dialog record, with the defaults `FINISH` and the sweeper use. */
  function SummaryOf(d: Dialog, title: string): (r: string)
    ensures var url := LinkLine(GetText(d, TaskUrl, ""));
      |url| <= |r| && r[|r| - |url|..] == url
    ensures TaskUrl in d && d[TaskUrl].Str? && d[TaskUrl].s != "" ==>
      var url := "\nСсылка: " + d[TaskUrl].s; |url| <= |r| && r[|r| - |url|..] == url
    ensures |SummaryHead(title)| <= |r| && r[..|SummaryHead(title)|] == SummaryHead(title)
    ensures Occurs(SummaryHead(title) + GetText(d, ProjectTitle, "без названия") + BoardCaption, r)
    ensures Occurs(BoardCaption + GetText(d, BoardTitle, "без названия") + AssigneeCaption, r)
    ensures Occurs(AssigneeCaption + GetText(d, AssigneeName, "не указан") + DeadlineCaption, r)
    ensures Occurs(DeadlineCaption + GetText(d, DeadlineStr, "без дедлайна") + ".", r)
  {
    SummaryText(title,
      GetText(d, ProjectTitle, "без названия"),
      GetText(d, BoardTitle, "без названия"),
      GetText(d, AssigneeName, "не указан"),
      GetText(d, DeadlineStr, "без дедлайна"),
      GetText(d, TaskUrl, ""))
  }

  /** `context.get("task_title") or state.get("task_title", "Без названия")`, as the stored value it yields. */
  function TitleValue(ctxTitle: Option<string>, state: Dialog): (v: Value)
    ensures Truthful(ctxTitle) ==> v == Str(ctxTitle.value)
    ensures !Truthful(ctxTitle) && TaskTitle in state ==> v == state[TaskTitle]
    ensures !Truthful(ctxTitle) && TaskTitle !in state ==> v == Str(Untitled)
  {
    if Truthful(ctxTitle) then Str(ctxTitle.value)
    else if TaskTitle in state then state[TaskTitle]
    else Str(Untitled)
  }

  /** The title sent to YouGile: a stored `None` stays `None`. */
  function TitleArg(v: Value): Option<string> {
    if v.Str? then Some(v.s) else None
  }

  /** The deadline stored in a record, if a date is stored. */
  function StoredDeadline(d: Dialog): (r: Option<CivilDate>)
    ensures r.Some? <==> Deadline in d && d[Deadline].Day?
    ensures r.Some? ==> r.value == d[Deadline].date
  {
    if Deadline in d && d[Deadline].Day? then Some(d[Deadline].date) else None
  }

  /** The body `create_task_and_update_post` sends for a record. */
  function BodyFor(title: Value, state: Dialog, author: Author): TaskBody {
    TaskBodyFor(TitleArg(title), GetStr(state, ColumnId), Description(author), GetStr(state, AssigneeId), StoredDeadline(state))
  }

  /** The summary string of the deadline stored in a record. */
  function DeadlineStrOf(state: Dialog): string {
    FormatDeadline(GetStr(state, DeadlineChoice), StoredDeadline(state), GetStr(state, DeadlineDisplay)).1
  }

  /** The record a successful creation merges in. */
  function AttachData(taskId: Option<string>, url: string, deadlineStr: string, postIds: seq<string>): Dialog {
    map[Step := Str(OptionalAttachStep), TaskId := OptValue(taskId), TaskUrl := Str(url),
        DeadlineStr := Str(deadlineStr), PostIds := Ids(postIds)]
  }

  /** The member `CHOOSE_ASSIGNEE` finds: the first one with the id. */
  function FirstMember(members: seq<Member>, assigneeId: string): (r: Option<Member>)
    ensures r.Some? ==> r.value in members && r.value.id == Some(assigneeId)
    ensures r.Some? ==>
      exists i :: 0 <= i < |members| && members[i] == r.value && forall j :: 0 <= j < i ==> members[j].id != Some(assigneeId)
    ensures r.None? ==> forall i :: 0 <= i < |members| ==> members[i].id != Some(assigneeId)
  {
    if members == [] then None
    else if members[0].id == Some(assigneeId) then Some(members[0])
    else FirstMember(members[1..], assigneeId)
  }

  /** The assignee name shown: the member's real name, else its e-mail, else the id. */
  function NameFor(members: seq<Member>, assigneeId: string): (r: string)
    ensures r != "" || assigneeId == ""
    ensures FirstMember(members, assigneeId).None? ==> r == assigneeId
    ensures var m := FirstMember(members, assigneeId);
      m.Some? && Truthful(m.value.realName) ==> r == m.value.realName.value
    ensures var m := FirstMember(members, assigneeId);
      m.Some? && !Truthful(m.value.realName) && Truthful(m.value.email) ==> r == m.value.email.value
    ensures var m := FirstMember(members, assigneeId);
      m.Some? && !Truthful(m.value.realName) && !Truthful(m.value.email) ==> r == assigneeId
  {
    match FirstMember(members, assigneeId)
    case None => assigneeId
    case Some(u) =>
      if Truthful(u.realName) then u.realName.value
      else if Truthful(u.email) then u.email.value
      else assigneeId
  }

  /** The allowed project the channel's default names: the first whose id matches. */
  function DefaultAmong(allowed: seq<Project>, projectId: string): (r: Option<Project>)
    ensures r.Some? ==> r.value in allowed && r.value.entity.id == Some(projectId)
    ensures r.Some? ==>
      exists i :: 0 <= i < |allowed| && allowed[i] == r.value && forall j :: 0 <= j < i ==> allowed[j].entity.id != Some(projectId)
    ensures r.None? ==> forall i :: 0 <= i < |allowed| ==> allowed[i].entity.id != Some(projectId)
  {
    if allowed == [] then None
    else if allowed[0].entity.id == Some(projectId) then Some(allowed[0])
    else DefaultAmong(allowed[1..], projectId)
  }

  // ---------------------------------------------------------------------------
  // The world and its primitive updates
  // ---------------------------------------------------------------------------

  /** Everything the handlers read and write. */
  datatype World = World(dialogs: map<Key, Dialog>, defaults: map<string, DefaultProject>, effects: seq<Effect>)

  /** The result of a handler: the new world, and whether it ran to the end (false: it raised). */
  datatype Run = Run(w: World, ok: bool)

  /** `get_state(key) or {}`. */
  function Cur(w: World, key: Key): Dialog {
    if key in w.dialogs then w.dialogs[key] else map[]
  }

  /** `set_state(key, data)` at time `now`. */
  function SetSt(w: World, key: Key, data: Dialog, now: real): World {
    w.(dialogs := w.dialogs[key := Merge(Cur(w, key), data, now)])
  }

  /** `clear_state(key)`. */
  function Clear(w: World, key: Key): World {
    w.(dialogs := w.dialogs - {key})
  }

  /** `STATE[key] = d`. */
  function Put(w: World, key: Key, d: Dialog): World {
    w.(dialogs := w.dialogs[key := d])
  }

  /** One call made. */
  function Send(w: World, e: Effect): World {
    w.(effects := w.effects + [e])
  }

  /** `set_default_project_for_channel`. */
  function SetDefault(w: World, channel: string, projectId: string, title: string): World {
    w.(defaults := w.defaults[channel := DefaultProject(projectId, DefaultTitle(title))])
  }

  /** `delete_default_project_for_channel`. */
  function DropDefault(w: World, channel: string): World {
    w.(defaults := w.defaults - {channel})
  }

  /** `post_ids + [id]` written back: the id of a prompt just posted joins the dialog's service posts. */
  function AddPostId(w: World, key: Key, id: string, now: real): World {
    SetSt(w, key, map[PostIds := Ids(PostIdsOf(Cur(w, key)) + [id])], now)
  }

  /** Every stored default carries a title. */
  ghost predicate Titled(w: World) {
    forall c :: c in w.defaults ==> w.defaults[c].projectTitle != ""
  }

  /** The dialogs of users other than `user` are the same in both worlds. */
  ghost predicate SameForOthers(before: World, after: World, user: string) {
    forall k: Key :: k.0 != user ==>
      (k in before.dialogs <==> k in after.dialogs) && (k in before.dialogs ==> before.dialogs[k] == after.dialogs[k])
  }

  /** `after` extends the calls of `before`. */
  ghost predicate Extends(before: World, after: World) {
    |before.effects| <= |after.effects| && after.effects[..|before.effects|] == before.effects
  }

  /** The calls `after` made beyond `before`. */
  function Added(before: World, after: World): seq<Effect>
    requires |before.effects| <= |after.effects|
  {
    after.effects[|before.effects|..]
  }

  /** The prompt-recording write adds exactly the new id, keeping every other field but the stamp. */
  lemma AddPostIdSpec(w: World, key: Key, id: string, now: real)
    ensures var d := Cur(AddPostId(w, key, id, now), key);
      PostIdsOf(d) == PostIdsOf(Cur(w, key)) + [id] &&
      forall f :: f in Cur(w, key) && f != PostIds && f != UpdatedAt ==> f in d && d[f] == Cur(w, key)[f]
  {
    var prev := Cur(w, key);
    var d := Cur(AddPostId(w, key, id, now), key);
    MergeSpec(prev, map[PostIds := Ids(PostIdsOf(prev) + [id])], now);
    forall f | f in prev && f != PostIds && f != UpdatedAt
      ensures f in d && d[f] == prev[f]
    {
      MergeAt(prev, map[PostIds := Ids(PostIdsOf(prev) + [id])], now, f);
    }
  }
}
