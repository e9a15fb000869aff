/**
 * What the entry points of a dialog promise as a whole: how
 * `start_task_creation` opens a dialog, that cancelling removes every
 * service post and the record, how the channel defaults are saved, and
 * that one press changes the dialogs of the pressing user only.
 */
module FlowFacts {
  import opened Wrappers
  import opened Calendar
  import opened Payload
  import opened Access
  import opened Dialogs
  import opened Channels
  import opened Machine
  import opened Wizard
  import opened WizardFacts

  // ---------------------------------------------------------------------------
  // start_task_creation
  // ---------------------------------------------------------------------------

  /** A user with no allowed project gets the refusal and nothing else happens. */
  lemma StartRefused(w: World, key: Key, channel: string, title: string, allowed: seq<Project>, remote: Remote, now: real)
    requires allowed == []
    ensures var r := StartFor(w, key, channel, title, allowed, remote, now);
      && r.ok && r.w.dialogs == w.dialogs && r.w.defaults == w.defaults && Extends(w, r.w)
      && Added(w, r.w) == [Post(channel, Reply(key), NoAccess)]
  {
  }

  /** The record a project prompt leaves: the fresh record, with the prompt as its only service post. */
  lemma PickRecord(key: Key, channel: string, title: string, allowed: seq<Project>, id: string, now: real)
    ensures var d := Merge(PickStart(key, channel, title, allowed), map[PostIds := Ids([id])], now);
      && AtStep(d, ChooseProjectStep) && d[TaskTitle] == Str(title) && d[ChannelId] == Str(channel)
      && d[RootPostId] == Str(key.1) && PostIdsOf(d) == [id]
      && d[ProjectOptions] == Titles(OptionTitles(EntitiesOf(allowed)))
  {
    MergeFresh(PickStart(key, channel, title, allowed), PostIds, Ids([id]), now);
  }

  /** Nothing of an earlier dialog under the key survives the fresh record. */
  lemma PickRecordFresh(key: Key, channel: string, title: string, allowed: seq<Project>, id: string, now: real)
    ensures var d := Merge(PickStart(key, channel, title, allowed), map[PostIds := Ids([id])], now);
      ProjectId !in d && BoardId !in d && ColumnId !in d && AssigneeId !in d && TaskId !in d
  {
    MergeFresh(PickStart(key, channel, title, allowed), PostIds, Ids([id]), now);
  }

  /** Without a usable default project, the fresh record is put in place and the prompt posted and recorded. */
  lemma {:induction false} StartPickingCur(w: World, key: Key, channel: string, title: string, allowed: seq<Project>, remote: Remote, now: real)
    requires allowed != [] && DefaultFor(w, channel, allowed).None?
    ensures var r := StartFor(w, key, channel, title, allowed, remote, now);
      && r.ok && OnlyAt(w, r.w, key) && r.w.defaults == w.defaults && Extends(w, r.w)
      && Cur(r.w, key) == Merge(PickStart(key, channel, title, allowed), map[PostIds := Ids([remote.postedId])], now)
      && Added(w, r.w) == [Post(channel, Reply(key), ProjectPrompt(title, PromptChoices(EntitiesOf(allowed))))]
  {
    var start := PickStart(key, channel, title, allowed);
    var w1 := Put(w, key, start);
    var e := Post(channel, Reply(key), ProjectPrompt(title, PromptChoices(EntitiesOf(allowed))));
    var w2 := Send(w1, e);
    assert Cur(w2, key) == start;
    var w3 := SetSt(w2, key, map[PostIds := Ids([remote.postedId])], now);
    assert w3.effects == w.effects + [e];
  }

  /**
   * Without a usable default project, the dialog under `key` is started
   * afresh: whatever it held before is gone, it waits for a project with the
   * title, channel and root post, and the project prompt is its only
   * service post; nothing else changes.
   */
  lemma {:induction false} StartPicking(w: World, key: Key, channel: string, title: string, allowed: seq<Project>, remote: Remote, now: real)
    requires allowed != [] && DefaultFor(w, channel, allowed).None?
    ensures var d := Cur(StartFor(w, key, channel, title, allowed, remote, now).w, key);
      && AtStep(d, ChooseProjectStep) && d[TaskTitle] == Str(title) && d[ChannelId] == Str(channel)
      && d[RootPostId] == Str(key.1) && PostIdsOf(d) == [remote.postedId]
      && d[ProjectOptions] == Titles(OptionTitles(EntitiesOf(allowed)))
      && ProjectId !in d && BoardId !in d && ColumnId !in d && AssigneeId !in d && TaskId !in d
  {
    StartPickingCur(w, key, channel, title, allowed, remote, now);
    PickRecord(key, channel, title, allowed, remote.postedId, now);
    PickRecordFresh(key, channel, title, allowed, remote.postedId, now);
  }

  /** The channel's default project is used only when it is one of the user's allowed projects. */
  lemma DefaultForSpec(w: World, channel: string, allowed: seq<Project>)
    ensures var r := DefaultFor(w, channel, allowed);
      && (r.Some? ==> r.value in allowed && channel in w.defaults && r.value.entity.id == Some(w.defaults[channel].projectId))
      && (r.None? && channel in w.defaults ==>
            forall i :: 0 <= i < |allowed| ==> allowed[i].entity.id != Some(w.defaults[channel].projectId))
  {
  }

  lemma OnlyAtTrans(a: World, b: World, c: World, key: Key)
    requires OnlyAt(a, b, key) && OnlyAt(b, c, key)
    ensures OnlyAt(a, c, key)
  {
  }

  /** With the channel's default project, only the dialog under `key` changes and calls are only added. */
  lemma {:induction false} StartWithDefaultFrame(w: World, key: Key, channel: string, title: string, allowed: seq<Project>,
                                                 proj: Project, remote: Remote, now: real)
    requires allowed != [] && DefaultFor(w, channel, allowed) == Some(proj)
    ensures var r := StartFor(w, key, channel, title, allowed, remote, now);
      OnlyAt(w, r.w, key) && r.w.defaults == w.defaults && Extends(w, r.w)
  {
    var projectTitle := proj.entity.title.GetOr("без названия");
    var start := DefaultStart(key, channel, title, proj.entity.id.value, projectTitle);
    var w1 := SetSt(w, key, start, now);
    var r := StartFor(w, key, channel, title, allowed, remote, now);
    SetStOnlyAt(w, key, start, now);
    SetStExtends(w, key, start, now);
    assert w1.defaults == w.defaults;
    if remote.boards.None? {
      assert r.w == w1;
    } else {
      var tail := WithProject(w1, key, channel, title, projectTitle, remote.boards.value, remote, now);
      assert r == tail;
      WithProjectFrame(w1, key, channel, title, projectTitle, remote.boards.value, remote, now);
      OnlyAtTrans(w, w1, tail.w, key);
      assert w.effects == w1.effects;
    }
  }

  /** The record a default project starts holds that project, the title, the channel and the root post. */
  lemma DefaultRecord(prev: Dialog, key: Key, channel: string, title: string, projectId: string, projectTitle: string, now: real)
    ensures var d := Merge(prev, DefaultStart(key, channel, title, projectId, projectTitle), now);
      && d[ProjectId] == Str(projectId) && d[TaskTitle] == Str(title)
      && d[ChannelId] == Str(channel) && d[RootPostId] == Str(key.1)
  {
    var data := DefaultStart(key, channel, title, projectId, projectTitle);
    MergeAt(prev, data, now, ProjectId);
    MergeAt(prev, data, now, TaskTitle);
    MergeAt(prev, data, now, ChannelId);
    MergeAt(prev, data, now, RootPostId);
  }

  /** With the channel's default project, the dialog ends with the context its start record gave it. */
  lemma {:induction false} StartWithDefaultKeeps(w: World, key: Key, channel: string, title: string, allowed: seq<Project>,
                                                 proj: Project, remote: Remote, now: real)
    requires allowed != [] && DefaultFor(w, channel, allowed) == Some(proj) && proj.entity.id.Some?
    ensures var start := DefaultStart(key, channel, title, proj.entity.id.value, proj.entity.title.GetOr("без названия"));
      KeepsContext(Merge(Cur(w, key), start, now), Cur(StartFor(w, key, channel, title, allowed, remote, now).w, key))
  {
    var projectTitle := proj.entity.title.GetOr("без названия");
    var start := DefaultStart(key, channel, title, proj.entity.id.value, projectTitle);
    var w1 := SetSt(w, key, start, now);
    var r := StartFor(w, key, channel, title, allowed, remote, now);
    assert Cur(w1, key) == Merge(Cur(w, key), start, now);
    if remote.boards.None? {
      assert r.w == w1;
    } else {
      var tail := WithProject(w1, key, channel, title, projectTitle, remote.boards.value, remote, now);
      assert r == tail;
      WithProjectFrame(w1, key, channel, title, projectTitle, remote.boards.value, remote, now);
    }
  }

  /**
   * With the channel's default project `proj`, the dialog goes straight past
   * the project step: it holds that project, the title, the channel and the
   * root post.
   */
  lemma {:induction false} StartWithDefault(w: World, key: Key, channel: string, title: string, allowed: seq<Project>,
                                            proj: Project, remote: Remote, now: real)
    requires allowed != [] && DefaultFor(w, channel, allowed) == Some(proj)
    ensures var d := Cur(StartFor(w, key, channel, title, allowed, remote, now).w, key);
      && GetStr(d, ProjectId) == proj.entity.id && GetStr(d, TaskTitle) == Some(title)
      && GetStr(d, ChannelId) == Some(channel) && GetStr(d, RootPostId) == Some(key.1)
  {
    DefaultForSpec(w, channel, allowed);
    var projectTitle := proj.entity.title.GetOr("без названия");
    var start := DefaultStart(key, channel, title, proj.entity.id.value, projectTitle);
    var d1 := Merge(Cur(w, key), start, now);
    DefaultRecord(Cur(w, key), key, channel, title, proj.entity.id.value, projectTitle, now);
    StartWithDefaultKeeps(w, key, channel, title, allowed, proj, remote, now);
    assert Context(ProjectId) && Context(TaskTitle) && Context(ChannelId) && Context(RootPostId);
  }

  /** With a default project, `start_task_creation` fails exactly as choosing that project would. */
  lemma {:induction false} StartWithDefaultFails(w: World, key: Key, channel: string, title: string, allowed: seq<Project>, remote: Remote, now: real)
    requires allowed != [] && DefaultFor(w, channel, allowed).Some?
    ensures var r := StartFor(w, key, channel, title, allowed, remote, now);
      r.ok <==> (remote.boards.Some? &&
                 (|remote.boards.value| == 1 ==> remote.boards.value[0].id.Some? && remote.columns.Some?))
  {
    var proj := DefaultFor(w, channel, allowed).value;
    var projectTitle := proj.entity.title.GetOr("без названия");
    var w1 := SetSt(w, key, DefaultStart(key, channel, title, proj.entity.id.value, projectTitle), now);
    if remote.boards.Some? && |remote.boards.value| == 1 {
      OneBoardOutcome(w1, key, channel, title, remote.boards.value[0], remote, now);
    }
  }

  // ---------------------------------------------------------------------------
  // CANCEL
  // ---------------------------------------------------------------------------

  /**
   * `CANCEL` deletes every service post of the dialog, in order, then posts
   * the notice; the record is gone, and no other dialog and no default
   * changes.
   */
  lemma {:induction false} CancelOutcome(w: World, p: Press, ctxTitle: Option<string>)
    ensures var r := Cancel(w, p, ctxTitle);
      var st := Cur(w, p.key);
      && p.key !in r.dialogs && OnlyAt(w, r, p.key) && r.defaults == w.defaults && Extends(w, r)
      && Added(w, r) == Deletes(PostIdsOf(st)) +
           [Post(GetText(st, ChannelId, p.channel), Thread(p), Cancelled(CancelledTitle(ctxTitle, st)))]
  {
    var st := Cur(w, p.key);
    var w1 := w.(effects := w.effects + Deletes(PostIdsOf(st)));
    var e := Post(GetText(st, ChannelId, p.channel), Thread(p), Cancelled(CancelledTitle(ctxTitle, st)));
    assert Cancel(w, p, ctxTitle).effects == w.effects + (Deletes(PostIdsOf(st)) + [e]);
  }

  /** Calls added in two stretches are the calls of the first followed by those of the second. */
  lemma AddedTrans(a: World, b: World, c: World)
    requires Extends(a, b) && Extends(b, c)
    ensures Extends(a, c) && Added(a, c) == Added(a, b) + Added(b, c)
  {
    assert c.effects[..|a.effects|] == c.effects[..|b.effects|][..|a.effects|];
    assert c.effects == c.effects[..|b.effects|] + c.effects[|b.effects|..];
  }

  /** The record `MENU_CREATE_TASK` writes: waiting for a title, asked in the menu post, which is the only service post. */
  lemma MenuRecord(prev: Dialog, p: Press, now: real)
    ensures var d := Merge(prev, map[Step := Str(AskTaskTitleStep), ChannelId := Str(p.channel), TaskTitle := Null,
                                     AskTitlePostId := Str(p.post), PostIds := Ids([p.post])], now);
      && AtStep(d, AskTaskTitleStep) && d[AskTitlePostId] == Str(p.post) && d[TaskTitle] == Null
      && PostIdsOf(d) == [p.post] && GetText(d, ChannelId, p.channel) == p.channel
  {
    var data := map[Step := Str(AskTaskTitleStep), ChannelId := Str(p.channel), TaskTitle := Null,
                     AskTitlePostId := Str(p.post), PostIds := Ids([p.post])];
    MergeAt(prev, data, now, Step);
    MergeAt(prev, data, now, AskTitlePostId);
    MergeAt(prev, data, now, TaskTitle);
    MergeAt(prev, data, now, PostIds);
    MergeAt(prev, data, now, ChannelId);
  }

  /**
   * `MENU_CREATE_TASK`: the dialog under the key waits for a title typed in
   * the thread, with the menu post turned into the question as its only
   * service post; nothing else changes.
   */
  lemma {:induction false} MenuCreateTaskOutcome(w: World, p: Press, now: real)
    ensures var r := MenuCreateTask(w, p, now);
      var d := Cur(r, p.key);
      && OnlyAt(w, r, p.key) && r.defaults == w.defaults && Extends(w, r) && Added(w, r) == [Patch(p.post, AskTitle)]
      && AtStep(d, AskTaskTitleStep) && d[AskTitlePostId] == Str(p.post) && d[TaskTitle] == Null
      && PostIdsOf(d) == [p.post] && GetText(d, ChannelId, p.channel) == p.channel
  {
    var data := map[Step := Str(AskTaskTitleStep), ChannelId := Str(p.channel), TaskTitle := Null,
                     AskTitlePostId := Str(p.post), PostIds := Ids([p.post])];
    var w0 := SetSt(w, p.key, data, now);
    assert Cur(MenuCreateTask(w, p, now), p.key) == Merge(Cur(w, p.key), data, now);
    MenuRecord(Cur(w, p.key), p, now);
  }

  /**
   * Cancelling right after `MENU_CREATE_TASK` deletes exactly the menu post,
   * which was turned into the title question, and drops the record.
   */
  lemma {:induction false} MenuThenCancel(w: World, p: Press, ctxTitle: Option<string>, now: real)
    ensures var w1 := MenuCreateTask(w, p, now);
      var r := Cancel(w1, p, ctxTitle);
      && p.key !in r.dialogs && OnlyAt(w, r, p.key) && r.defaults == w.defaults && Extends(w, r)
      && Added(w, r) == [Patch(p.post, AskTitle), DeletePost(p.post),
                         Post(p.channel, Thread(p), Cancelled(CancelledTitle(ctxTitle, Cur(w1, p.key))))]
  {
    var w1 := MenuCreateTask(w, p, now);
    var r := Cancel(w1, p, ctxTitle);
    MenuCreateTaskOutcome(w, p, now);
    CancelOutcome(w1, p, ctxTitle);
    AddedTrans(w, w1, r);
    OnlyAtTrans(w, w1, r, p.key);
    assert Deletes([p.post]) == [DeletePost(p.post)];
  }

  // ---------------------------------------------------------------------------
  // The channel's default project
  // ---------------------------------------------------------------------------

  /**
   * Saving a default: an empty selection changes nothing; "__none__" drops
   * the channel's default; any other id becomes the default with the title
   * the dialog offered for it. Both close the dialog and change no other
   * dialog and no other channel's default.
   */
  lemma {:induction false} SaveDefaultOutcome(w: World, p: Press, fromMenu: bool, selected: Option<string>)
    ensures var r := SaveDefault(w, p, fromMenu, selected);
      && (!Truthful(selected) ==> r == w)
      && (Truthful(selected) ==> p.key !in r.dialogs && OnlyAt(w, r, p.key) && Extends(w, r) && |Added(w, r)| == 1)
      && (Truthful(selected) && selected.value == NoneValue ==> r.defaults == w.defaults - {p.channel})
      && (Truthful(selected) && selected.value != NoneValue ==>
            r.defaults == w.defaults[p.channel := DefaultProject(selected.value,
              DefaultTitle(TitleIn(Cur(w, p.key), ProjectOptions, selected.value, "без названия")))])
  {
  }

  /** Every default a press leaves behind carries a title. */
  lemma {:induction false} SaveDefaultTitled(w: World, p: Press, fromMenu: bool, selected: Option<string>)
    requires Titled(w)
    ensures Titled(SaveDefault(w, p, fromMenu, selected))
  {
    var r := SaveDefault(w, p, fromMenu, selected);
    if Truthful(selected) && selected.value != NoneValue {
      var title := TitleIn(Cur(w, p.key), ProjectOptions, selected.value, "без названия");
      assert r.defaults == w.defaults[p.channel := DefaultProject(selected.value, DefaultTitle(title))];
      forall c | c in r.defaults
        ensures r.defaults[c].projectTitle != ""
      {
        if c != p.channel {
          assert r.defaults[c] == w.defaults[c];
        }
      }
    }
  }

  // ---------------------------------------------------------------------------
  // One press as a whole
  // ---------------------------------------------------------------------------

  lemma OnlyAtConfined(a: World, b: World, key: Key)
    requires OnlyAt(a, b, key) && Extends(a, b)
    ensures Confined(a, b, key.0)
  {
  }

  /** Offering the projects changes only the dialog under the key and no default. */
  lemma {:induction false} OfferDefaultsFrame(w: World, p: Press, fromMenu: bool, remote: Remote, now: real)
    ensures var r := OfferDefaults(w, p, fromMenu, remote, now);
      OnlyAt(w, r, p.key) && r.defaults == w.defaults && Extends(w, r) && |Added(w, r)| == 1
  {
    var allowed := AllowedSpec(remote.actorEmail, remote.roster, remote.projects);
    if allowed != [] {
      var es := EntitiesOf(allowed);
      var step := if fromMenu then MenuChangeDefaultProjectStep else DefaultProjectSelectStep;
      var data := map[Step := Str(step), ChannelId := Str(p.channel), ProjectOptions := Titles(OptionTitles(es))];
      SetStOnlyAt(w, p.key, data, now);
    }
  }

  /**
   * `FINISH`: the summary goes to the thread and then to the channel, the
   * pressed post is closed, and the record is dropped; no other dialog and
   * no default changes.
   */
  lemma {:induction false} FinishOutcome(w: World, p: Press)
    ensures var r := Finish(w, p);
      var st := Cur(w, p.key);
      var channel := GetText(st, ChannelId, p.channel);
      var summary := SummaryOf(st, Render(p.title));
      && p.key !in r.dialogs && OnlyAt(w, r, p.key) && r.defaults == w.defaults && Extends(w, r)
      && Added(w, r) == [Post(channel, Thread(p), TaskSummary(summary)), Post(channel, None, TaskSummary(summary)),
                         Patch(p.post, DialogFinished(Render(p.title)))]
  {
  }

  /** The steps that may change a channel's default project. */
  const DefaultSteps := {"MENU_DEFAULT_PROJECT_SET", "DEFAULT_PROJECT_PROMPT_NO", "DEFAULT_PROJECT_SET"}

  /**
   * Whatever step a press names, it changes only the dialogs of the user who
   * pressed and only adds calls; only the default-project steps touch the
   * channel defaults.
   */
  lemma {:induction false} DispatchConfined(w: World, teamId: string, a: Action, remote: Remote, today: CivilDate, now: real)
    requires Accepted(a)
    ensures var r := Dispatch(w, teamId, a, remote, today, now);
      && Confined(w, r.w, ActionUser(a).value)
      && (a.step.value !in DefaultSteps ==> r.w.defaults == w.defaults)
  {
    var p := PressOf(w, a);
    var user := ActionUser(a).value;
    assert p.key.0 == user;
    var selected := ExtractSelectedValue(a.ctxSelected, a.dataSelected);
    var r := Dispatch(w, teamId, a, remote, today, now);
    match a.step.value
    case "MENU_CREATE_TASK" =>
      MenuCreateTaskOutcome(w, p, now);
      OnlyAtConfined(w, r.w, p.key);
    case "MENU_SHOW_SHORTCUTS" =>
      ConfinedSend(w, Post(p.channel, Thread(p), Shortcuts), user);
    case "MENU_CHANGE_DEFAULT_PROJECT" =>
      OfferDefaultsFrame(w, p, true, remote, now);
      OnlyAtConfined(w, r.w, p.key);
    case "MENU_DEFAULT_PROJECT_CANCEL" =>
      var w1 := Send(w, Patch(p.post, DefaultProjectKept));
      ConfinedSend(w, Patch(p.post, DefaultProjectKept), user);
      ConfinedClear(w1, p.key);
      ConfinedTrans(w, w1, r.w, user);
    case "MENU_DEFAULT_PROJECT_SET" =>
      SaveDefaultOutcome(w, p, true, selected);
      if Truthful(selected) {
        OnlyAtConfined(w, r.w, p.key);
      }
    case "MENU_CANCEL" =>
      var w1 := Send(w, Patch(p.post, DialogClosed));
      ConfinedSend(w, Patch(p.post, DialogClosed), user);
      ConfinedClear(w1, p.key);
      ConfinedTrans(w, w1, r.w, user);
    case "DEFAULT_PROJECT_PROMPT_NO" =>
      var w0 := DropDefault(w, p.channel);
      var w1 := Send(w0, Patch(p.post, DefaultProjectDeclined));
      ConfinedSend(w0, Patch(p.post, DefaultProjectDeclined), user);
      ConfinedClear(w1, p.key);
      ConfinedTrans(w0, w1, r.w, user);
    case "DEFAULT_PROJECT_PROMPT_YES" =>
      OfferDefaultsFrame(w, p, false, remote, now);
      OnlyAtConfined(w, r.w, p.key);
    case "DEFAULT_PROJECT_SET" =>
      SaveDefaultOutcome(w, p, false, selected);
      if Truthful(selected) {
        OnlyAtConfined(w, r.w, p.key);
      }
    case "CHOOSE_PROJECT" => ChooseProjectFrame(w, p, selected, remote, now);
    case "CHOOSE_BOARD" => ChooseBoardFrame(w, p, selected, a.ctxProjectId, remote, now);
    case "CHOOSE_COLUMN" => ChooseColumnFrame(w, p, selected, a.ctxProjectId, a.ctxBoardId, remote, now);
    case "CHOOSE_ASSIGNEE" => ChooseAssigneeFrame(w, p, selected, remote, now);
    case "CHOOSE_DEADLINE" => ChooseDeadlineFrame(w, teamId, p, a.ctxDeadlineChoice, remote, today, now);
    case "CANCEL" =>
      CancelOutcome(w, p, a.ctxTaskTitle);
      OnlyAtConfined(w, r.w, p.key);
    case "FINISH" =>
      FinishOutcome(w, p);
      OnlyAtConfined(w, r.w, p.key);
    case _ =>
  }

  /**
   * `mm_actions` as a whole: a press changes only the dialogs of the user
   * who pressed and only adds calls (a failing step adds its error notice);
   * a press that lacks a field changes nothing.
   */
  lemma {:induction false} HandleActionConfined(w: World, teamId: string, a: Action, remote: Remote, today: CivilDate, now: real)
    ensures var r := HandleAction(w, teamId, a, remote, today, now);
      && (!Accepted(a) ==> r == w)
      && (Accepted(a) ==> Confined(w, r, ActionUser(a).value))
      && (Accepted(a) && a.step.value !in DefaultSteps ==> r.defaults == w.defaults)
  {
    if Accepted(a) {
      var run := Dispatch(w, teamId, a, remote, today, now);
      DispatchConfined(w, teamId, a, remote, today, now);
      if !run.ok {
        var e := Post(a.channelId.value, Some(ActionRoot(a).value), ActionFailed);
        ConfinedSend(run.w, e, ActionUser(a).value);
        ConfinedTrans(w, run.w, Send(run.w, e), ActionUser(a).value);
      }
    }
  }

  /** A press never leaves a channel default without a title. */
  lemma {:induction false} HandleActionTitled(w: World, teamId: string, a: Action, remote: Remote, today: CivilDate, now: real)
    requires Titled(w)
    ensures Titled(HandleAction(w, teamId, a, remote, today, now))
  {
    if Accepted(a) {
      var run := Dispatch(w, teamId, a, remote, today, now);
      var r := HandleAction(w, teamId, a, remote, today, now);
      assert r.defaults == run.w.defaults;
      DispatchConfined(w, teamId, a, remote, today, now);
      var p := PressOf(w, a);
      var selected := ExtractSelectedValue(a.ctxSelected, a.dataSelected);
      if a.step.value == "DEFAULT_PROJECT_PROMPT_NO" {
        assert run.w.defaults == w.defaults - {p.channel};
      } else if a.step.value == "MENU_DEFAULT_PROJECT_SET" {
        assert run.w == SaveDefault(w, p, true, selected);
        SaveDefaultTitled(w, p, true, selected);
      } else if a.step.value == "DEFAULT_PROJECT_SET" {
        assert run.w == SaveDefault(w, p, false, selected);
        SaveDefaultTitled(w, p, false, selected);
      }
    }
  }
}
