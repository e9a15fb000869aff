/**
 * What the cleanup thread and the listener promise: a created task's dialog
 * becomes due exactly once it has been idle past the timeout, a sweep
 * removes exactly the due dialogs that name a channel, an attachment
 * restarts the idle clock, a typed date creates the YouGile task with that date,
 * and a posted message changes the dialogs of its author only.
 */
module SessionFacts {
  import opened Wrappers
  import opened Text
  import opened Calendar
  import opened Command
  import opened Deadline
  import opened Access
  import opened Dialogs
  import opened Machine
  import opened Wizard
  import opened Sweeper
  import opened Listener
  import opened WizardFacts
  import opened FlowFacts

  // ---------------------------------------------------------------------------
  // The idle clock
  // ---------------------------------------------------------------------------

  /** A record stamped at `now` (a real time, not zero) was last touched at `now`. */
  lemma TouchedAt(d: Dialog, now: real)
    requires UpdatedAt in d && d[UpdatedAt] == Time(now) && now != 0.0
    ensures LastTouched(d) == Some(now)
  {
  }

  /**
   * Once the YouGile task exists, its dialog is finished by the sweep at time `t`
   * exactly when more than the timeout has passed since the creation.
   */
  lemma {:induction false} CreatedThenDue(w: World, title: Value, state: Dialog, user: string, post: string,
                                          taskId: Option<string>, url: string, deadlineStr: string, postedId: string,
                                          now: real, t: real, timeoutMinutes: int)
    requires now != 0.0
    ensures var r := AfterCreation(w, title, state, user, post, taskId, url, deadlineStr, postedId, now);
      var d := Cur(r, (user, GetStr(state, RootPostId).GetOr("")));
      Due(d, t, timeoutMinutes) <==> t - now > (timeoutMinutes * 60) as real
  {
    var r := AfterCreation(w, title, state, user, post, taskId, url, deadlineStr, postedId, now);
    var d := Cur(r, (user, GetStr(state, RootPostId).GetOr("")));
    AfterCreationRecord(w, title, state, user, post, taskId, url, deadlineStr, postedId, now);
    TouchedAt(d, now);
  }

  /**
   * A message in a created task's thread: its stripped text is sent to the
   * task's chat first; when anything reached the chat, the dialog keeps every
   * field but its stamp, which restarts at `now`, so it is not due at `now`;
   * otherwise no dialog changes.
   */
  lemma {:induction false} AttachmentOutcome(w: World, key: Key, taskId: string, ev: Posted, remote: Remote, now: real,
                                             timeoutMinutes: int)
    requires now != 0.0 && timeoutMinutes >= 0
    ensures var r := Attachment(w, key, taskId, ev, remote, now);
      var text := Strip(ev.message);
      && OnlyAt(w, r, key) && r.defaults == w.defaults && Extends(w, r)
      && (text != "" ==> |Added(w, r)| >= 1 && Added(w, r)[0] == Comment(taskId, text))
      && (ev.filesSent || (text != "" && remote.commentAccepted) ==>
            && Cur(r, key) == Merge(Cur(w, key), map[], now)
            && !Due(Cur(r, key), now, timeoutMinutes))
      && (!(ev.filesSent || (text != "" && remote.commentAccepted)) ==> r.dialogs == w.dialogs)
  {
    var text := Strip(ev.message);
    var w1 := if text != "" then Send(w, Comment(taskId, text)) else w;
    var r := Attachment(w, key, taskId, ev, remote, now);
    if ev.filesSent || (text != "" && remote.commentAccepted) {
      var w2 := Send(w1, React(ev.id.GetOr("")));
      assert Cur(w2, key) == Cur(w, key);
      SetStOnlyAt(w2, key, map[], now);
      TouchedAt(Cur(r, key), now);
      assert r.effects == w.effects + Added(w, r);
    }
  }

  // ---------------------------------------------------------------------------
  // The sweep
  // ---------------------------------------------------------------------------

  /** A dialog the sweep closes at `now`: due, and with a channel to post the summary to. */
  ghost predicate Closes(d: Dialog, now: real, timeoutMinutes: int) {
    Due(d, now, timeoutMinutes) && GetTruthy(d, ChannelId).Some?
  }

  /**
   * `auto_finish_dialog`: a record with a channel gets its summary and the
   * auto-finish note in the thread and is dropped; any other is left alone.
   */
  lemma {:induction false} AutoFinishOutcome(w: World, key: Key)
    ensures var r := AutoFinish(w, key);
      var st := Cur(w, key);
      && OnlyAt(w, r, key) && r.defaults == w.defaults && Extends(w, r)
      && (st == map[] || GetTruthy(st, ChannelId).None? ==> r == w)
      && (st != map[] && GetTruthy(st, ChannelId).Some? ==>
            var channel := GetTruthy(st, ChannelId).value;
            var summary := SummaryOf(st, GetText(st, TaskTitle, Untitled));
            && key !in r.dialogs
            && Added(w, r) == [Post(channel, Reply(key), TaskSummary(summary)), Post(channel, Reply(key), AutoFinishNote)])
  {
    var st := Cur(w, key);
    var channel := GetTruthy(st, ChannelId);
    if st != map[] && channel.Some? {
      var summary := SummaryOf(st, GetText(st, TaskTitle, Untitled));
      var e1 := Post(channel.value, Reply(key), TaskSummary(summary));
      var e2 := Post(channel.value, Reply(key), AutoFinishNote);
      var w2 := Send(Send(w, e1), e2);
      assert AutoFinish(w, key) == Clear(w2, key);
      assert w2.effects == w.effects + [e1, e2];
    }
  }

  /** The keys are listed without repetition. */
  predicate Distinct(order: seq<Key>) {
    forall i, j :: 0 <= i < j < |order| ==> order[i] != order[j]
  }

  /** A pass over a snapshot keeps the defaults and only adds calls. */
  lemma {:induction false} SweepFromFrame(w: World, items: map<Key, Dialog>, order: seq<Key>, now: real, timeoutMinutes: int)
    ensures var r := SweepFrom(w, items, order, now, timeoutMinutes);
      r.defaults == w.defaults && Extends(w, r)
    decreases |order|
  {
    if order != [] {
      var init := order[..|order| - 1];
      var k := order[|order| - 1];
      SweepFromFrame(w, items, init, now, timeoutMinutes);
      var w1 := SweepFrom(w, items, init, now, timeoutMinutes);
      if k in items && Due(items[k], now, timeoutMinutes) {
        AutoFinishOutcome(w1, k);
        AddedTrans(w, w1, AutoFinish(w1, k));
      }
    }
  }

  /**
   * A pass over the snapshot of the store, in any order listing each key at
   * most once, drops exactly the listed dialogs that it closes and leaves
   * every other dialog as it was.
   */
  lemma {:induction false} SweepFromDialogs(w: World, order: seq<Key>, now: real, timeoutMinutes: int)
    requires Distinct(order)
    ensures var r := SweepFrom(w, w.dialogs, order, now, timeoutMinutes);
      && (forall k :: k in r.dialogs <==> k in w.dialogs && !(k in order && Closes(w.dialogs[k], now, timeoutMinutes)))
      && (forall k :: k in r.dialogs ==> r.dialogs[k] == w.dialogs[k])
    decreases |order|
  {
    if order != [] {
      var init := order[..|order| - 1];
      var k := order[|order| - 1];
      assert Distinct(init);
      SweepFromDialogs(w, init, now, timeoutMinutes);
      var w1 := SweepFrom(w, w.dialogs, init, now, timeoutMinutes);
      assert k !in init;
      assert forall j :: j in order <==> j in init || j == k;
      if k in w.dialogs && Due(w.dialogs[k], now, timeoutMinutes) {
        assert Cur(w1, k) == w.dialogs[k];
        AutoFinishOutcome(w1, k);
      }
    }
  }

  /**
   * One pass of the cleanup loop over the store, listing each key once,
   * drops exactly the dialogs it closes: due at `now` and naming a channel.
   */
  lemma {:induction false} SweepDialogs(w: World, order: seq<Key>, now: real, timeoutMinutes: int)
    requires Distinct(order) && forall k :: k in w.dialogs ==> k in order
    ensures var r := Sweep(w, order, now, timeoutMinutes);
      && r.defaults == w.defaults && Extends(w, r)
      && (forall k :: k in r.dialogs <==> k in w.dialogs && !Closes(w.dialogs[k], now, timeoutMinutes))
      && (forall k :: k in r.dialogs ==> r.dialogs[k] == w.dialogs[k])
  {
    SweepFromFrame(w, w.dialogs, order, now, timeoutMinutes);
    SweepFromDialogs(w, order, now, timeoutMinutes);
  }

  // ---------------------------------------------------------------------------
  // The listener
  // ---------------------------------------------------------------------------

  /** `start_task_creation` changes only the user's dialogs and no default, and only adds calls. */
  lemma {:induction false} StartConfined(w: World, key: Key, channel: string, title: string, allowed: seq<Project>,
                                         remote: Remote, now: real)
    ensures var r := StartFor(w, key, channel, title, allowed, remote, now);
      Confined(w, r.w, key.0) && r.w.defaults == w.defaults
  {
    var r := StartFor(w, key, channel, title, allowed, remote, now);
    if allowed == [] {
      StartRefused(w, key, channel, title, allowed, remote, now);
    } else if DefaultFor(w, channel, allowed).Some? {
      StartWithDefaultFrame(w, key, channel, title, allowed, DefaultFor(w, channel, allowed).value, remote, now);
      OnlyAtConfined(w, r.w, key);
    } else {
      StartPickingCur(w, key, channel, title, allowed, remote, now);
      OnlyAtConfined(w, r.w, key);
    }
  }

  /** After `CHOOSE_DEADLINE` with "custom", the dialog waits for a typed date. */
  lemma {:induction false} CustomAwaitsDate(w: World, teamId: string, p: Press, remote: Remote, today: CivilDate, now: real)
    ensures AwaitingDate(Cur(ChooseDeadline(w, teamId, p, Some("custom"), remote, today, now).w, p.key))
  {
    ChooseDeadlineCustom(w, teamId, p, remote, today, now);
  }

  /** The record a readable typed date leaves: the date and the text as typed, everything else kept. */
  lemma DateRecord(st: Dialog, date: CivilDate, text: string, now: real)
    ensures var d := Merge(st, map[Deadline := Day(date), DeadlineDisplay := Str(text)], now);
      && d[Deadline] == Day(date) && d[DeadlineDisplay] == Str(text) && StoredDeadline(d) == Some(date)
      && PostIdsOf(d) == PostIdsOf(st) && TitleValue(None, d) == TitleValue(None, st)
      && GetStr(d, ColumnId) == GetStr(st, ColumnId) && GetStr(d, AssigneeId) == GetStr(st, AssigneeId)
  {
    var data := map[Deadline := Day(date), DeadlineDisplay := Str(text)];
    MergeAt(st, data, now, Deadline);
    MergeAt(st, data, now, DeadlineDisplay);
    MergeAt(st, data, now, PostIds);
    MergeAt(st, data, now, TaskTitle);
    MergeGetStr(st, data, now, ColumnId);
    MergeGetStr(st, data, now, AssigneeId);
  }

  /** An unreadable typed date only gets a notice. */
  lemma {:induction false} TypedDateUnreadable(w: World, teamId: string, key: Key, channel: string, text: string,
                                               remote: Remote, now: real)
    requires text != "" && ParseIsoDate(text).None?
    ensures var r := TypedDate(w, teamId, key, channel, text, remote, now);
      r.dialogs == w.dialogs && r.defaults == w.defaults && Extends(w, r)
      && Added(w, r) == [Post(channel, Reply(key), DateNotUnderstood(text))]
  {
  }

  /** A typed date changes only the user's dialogs and no default, and only adds calls. */
  lemma {:induction false} TypedDateFrame(w: World, teamId: string, key: Key, channel: string, text: string,
                                          remote: Remote, now: real)
    requires text != ""
    ensures var r := TypedDate(w, teamId, key, channel, text, remote, now);
      Confined(w, r, key.0) && r.defaults == w.defaults
  {
    var r := TypedDate(w, teamId, key, channel, text, remote, now);
    if ParseIsoDate(text).Some? {
      var date := ParseIsoDate(text).value;
      var data := map[Deadline := Day(date), DeadlineDisplay := Str(text)];
      var w1 := SetSt(w, key, data, now);
      var st1 := Cur(w1, key);
      ConfinedSetSt(w, key, data, now);
      var title := TitleValue(None, st1);
      match LastPrompt(st1)
      case Some(target) =>
        assert r == CreateTaskAndUpdatePost(w1, teamId, title, st1, key.0, target, remote, now).w;
        CreateTaskCalls(w1, teamId, title, st1, key.0, target, remote, now);
        ConfinedTrans(w, w1, r, key.0);
      case None =>
        var e := Post(channel, Reply(key), CustomDeadlineWithoutPrompt(Render(title)));
        ConfinedSend(w1, e, key.0);
        ConfinedTrans(w, w1, r, key.0);
    }
  }

  /**
   * A readable date typed while a prompt is on record first creates the
   * task, with that date as its deadline and with the title, column and
   * assignee of the dialog.
   */
  lemma {:induction false} TypedDateCreates(w: World, teamId: string, key: Key, channel: string, text: string,
                                            remote: Remote, now: real)
    requires text != "" && ParseIsoDate(text).Some? && LastPrompt(Cur(w, key)).Some?
    ensures var r := TypedDate(w, teamId, key, channel, text, remote, now);
      var st := Cur(w, key);
      && |w.effects| < |r.effects|
      && r.effects[|w.effects|] == CreateTask(TaskBodyFor(TitleArg(TitleValue(None, st)), GetStr(st, ColumnId),
                                                          Description(remote.author), GetStr(st, AssigneeId),
                                                          Some(ParseIsoDate(text).value)))
  {
    var st := Cur(w, key);
    var date := ParseIsoDate(text).value;
    var data := map[Deadline := Day(date), DeadlineDisplay := Str(text)];
    var w1 := SetSt(w, key, data, now);
    var st1 := Cur(w1, key);
    assert st1 == Merge(st, data, now);
    DateRecord(st, date, text, now);
    assert LastPrompt(st1) == LastPrompt(st);
    var title := TitleValue(None, st1);
    var target := LastPrompt(st1).value;
    assert TypedDate(w, teamId, key, channel, text, remote, now) == CreateTaskAndUpdatePost(w1, teamId, title, st1, key.0, target, remote, now).w;
    CreateTaskCalls(w1, teamId, title, st1, key.0, target, remote, now);
  }

  /** A readable date with no prompt on record is stored and only confirmed. */
  lemma {:induction false} TypedDateNoPrompt(w: World, teamId: string, key: Key, channel: string, text: string,
                                             remote: Remote, now: real)
    requires text != "" && ParseIsoDate(text).Some? && LastPrompt(Cur(w, key)).None?
    ensures var r := TypedDate(w, teamId, key, channel, text, remote, now);
      var d := Cur(r, key);
      && Extends(w, r) && Added(w, r) == [Post(channel, Reply(key), CustomDeadlineWithoutPrompt(Render(TitleValue(None, Cur(w, key)))))]
      && StoredDeadline(d) == ParseIsoDate(text) && GetStr(d, DeadlineDisplay) == Some(text)
  {
    var st := Cur(w, key);
    var date := ParseIsoDate(text).value;
    var data := map[Deadline := Day(date), DeadlineDisplay := Str(text)];
    var w1 := SetSt(w, key, data, now);
    assert Cur(w1, key) == Merge(st, data, now);
    DateRecord(st, date, text, now);
    assert LastPrompt(Cur(w1, key)) == LastPrompt(st);
  }

  /** A typed title changes only the user's dialogs and no default. */
  lemma {:induction false} TypedTitleFrame(w: World, key: Key, channel: string, text: string, remote: Remote, now: real)
    requires text != ""
    ensures var r := TypedTitle(w, key, channel, text, remote, now);
      Confined(w, r, key.0) && r.defaults == w.defaults
  {
    var w1 := SetSt(w, key, map[TaskTitle := Str(text)], now);
    ConfinedSetSt(w, key, map[TaskTitle := Str(text)], now);
    var ask := GetTruthy(Cur(w1, key), AskTitlePostId);
    var w2 := if ask.Some? then Send(w1, Patch(ask.value, CreatingTask(text))) else w1;
    if ask.Some? {
      ConfinedSend(w1, Patch(ask.value, CreatingTask(text)), key.0);
    }
    ConfinedTrans(w, w1, w2, key.0);
    var allowed := AllowedSpec(remote.actorEmail, remote.roster, remote.projects);
    StartConfined(w2, key, channel, text, allowed, remote, now);
    ConfinedTrans(w, w2, StartFor(w2, key, channel, text, allowed, remote, now).w, key.0);
  }

  /**
   * The bot added to a channel greets it; the bot removed from a channel
   * forgets that channel's default; no dialog changes, and events about
   * other users do nothing.
   */
  lemma {:induction false} HandlePostedMembership(w: World, teamId: string, botId: Option<string>, botUsername: string,
                                                  ev: Posted, remote: Remote, now: real)
    requires ev.kind == "system_add_to_channel" || ev.kind == "system_remove_from_channel"
    ensures var r := HandlePosted(w, teamId, botId, botUsername, ev, remote, now);
      var mine := Truthful(botId) && ev.channelId != "";
      && r.dialogs == w.dialogs && Extends(w, r)
      && (ev.kind == "system_add_to_channel" ==>
            r.defaults == w.defaults &&
            Added(w, r) == if mine && ev.addedUserId == botId then [Post(ev.channelId, None, JoinedChannel)] else [])
      && (ev.kind == "system_remove_from_channel" ==>
            Added(w, r) == [] &&
            r.defaults == if mine && ev.removedUserId == botId then w.defaults - {ev.channelId} else w.defaults)
  {
  }

  /** A message mentioning the bot changes only the dialogs of its author and no default. */
  lemma {:induction false} HandlePostedMention(w: World, teamId: string, botId: Option<string>, botUsername: string,
                                               ev: Posted, remote: Remote, now: real)
    requires ev.kind != "system_add_to_channel" && ev.kind != "system_remove_from_channel"
    requires MentionsBot(ev.message, botUsername)
    ensures var r := HandlePosted(w, teamId, botId, botUsername, ev, remote, now);
      Confined(w, r, ev.userId) && r.defaults == w.defaults
  {
    var key := (ev.userId, PostedRoot(ev));
    var r := HandlePosted(w, teamId, botId, botUsername, ev, remote, now);
    match ParseCreateCommand(ev.message, botUsername)
    case Some(title) =>
      var allowed := AllowedSpec(remote.actorEmail, remote.roster, remote.projects);
      assert r == StartFor(w, key, ev.channelId, title, allowed, remote, now).w;
      StartConfined(w, key, ev.channelId, title, allowed, remote, now);
    case None =>
  }

  /** A message not mentioning the bot changes only the dialogs of its author and no default. */
  lemma {:induction false} HandlePostedReply(w: World, teamId: string, botId: Option<string>, botUsername: string,
                                             ev: Posted, remote: Remote, now: real)
    requires ev.kind != "system_add_to_channel" && ev.kind != "system_remove_from_channel"
    requires !MentionsBot(ev.message, botUsername)
    ensures var r := HandlePosted(w, teamId, botId, botUsername, ev, remote, now);
      Confined(w, r, ev.userId) && r.defaults == w.defaults
  {
    var key := (ev.userId, PostedRoot(ev));
    var st := Cur(w, key);
    var text := Strip(ev.message);
    var r := HandlePosted(w, teamId, botId, botUsername, ev, remote, now);
    if AwaitingDate(st) {
      if text != "" {
        assert r == TypedDate(w, teamId, key, ev.channelId, text, remote, now);
        TypedDateFrame(w, teamId, key, ev.channelId, text, remote, now);
      }
    } else if AtStep(st, AskTaskTitleStep) {
      if text != "" {
        assert r == TypedTitle(w, key, ev.channelId, text, remote, now);
        TypedTitleFrame(w, key, ev.channelId, text, remote, now);
      }
    } else if AtStep(st, OptionalAttachStep) && GetTruthy(st, TaskId).Some? {
      assert r == Attachment(w, key, GetTruthy(st, TaskId).value, ev, remote, now);
      AttachmentFrame(w, key, GetTruthy(st, TaskId).value, ev, remote, now);
    }
  }

  /**
   * One `posted` event changes only the dialogs of the message's author and
   * only adds calls; the defaults change only when the bot is removed from a
   * channel, and then only that channel's default is dropped.
   */
  lemma {:induction false} HandlePostedConfined(w: World, teamId: string, botId: Option<string>, botUsername: string,
                                                ev: Posted, remote: Remote, now: real)
    ensures var r := HandlePosted(w, teamId, botId, botUsername, ev, remote, now);
      && Confined(w, r, ev.userId)
      && (ev.kind != "system_remove_from_channel" ==> r.defaults == w.defaults)
      && (ev.kind == "system_remove_from_channel" ==> r.defaults == w.defaults || r.defaults == w.defaults - {ev.channelId})
  {
    if ev.kind == "system_add_to_channel" || ev.kind == "system_remove_from_channel" {
      HandlePostedMembership(w, teamId, botId, botUsername, ev, remote, now);
    } else if MentionsBot(ev.message, botUsername) {
      HandlePostedMention(w, teamId, botId, botUsername, ev, remote, now);
    } else {
      HandlePostedReply(w, teamId, botId, botUsername, ev, remote, now);
    }
  }

  /** A message in a created task's thread changes only that dialog and no default. */
  lemma {:induction false} AttachmentFrame(w: World, key: Key, taskId: string, ev: Posted, remote: Remote, now: real)
    ensures var r := Attachment(w, key, taskId, ev, remote, now);
      Confined(w, r, key.0) && r.defaults == w.defaults
  {
    var text := Strip(ev.message);
    var w1 := if text != "" then Send(w, Comment(taskId, text)) else w;
    if text != "" {
      ConfinedSend(w, Comment(taskId, text), key.0);
    }
    if ev.filesSent || (text != "" && remote.commentAccepted) {
      var w2 := Send(w1, React(ev.id.GetOr("")));
      ConfinedSend(w1, React(ev.id.GetOr("")), key.0);
      ConfinedSetSt(w2, key, map[], now);
      ConfinedTrans(w1, w2, SetSt(w2, key, map[], now), key.0);
      ConfinedTrans(w, w1, SetSt(w2, key, map[], now), key.0);
    }
  }
}
