/**
 * What the wizard's steps promise, stated over the step functions of
 * `Wizard`: which record each step leaves under the dialog's key, which
 * calls it makes, that it touches no other user's dialog, and that a
 * prompt's id is the one the dialog records.
 */
module WizardFacts {
  import opened Wrappers
  import opened Calendar
  import opened Deadline
  import opened Payload
  import opened Access
  import opened Dialogs
  import opened Channels
  import opened Machine
  import opened Wizard

  // ---------------------------------------------------------------------------
  // Records and worlds
  // ---------------------------------------------------------------------------

  /** The fields that carry the dialog's context from step to step. */
  predicate Context(f: Field) {
    f == ProjectId || f == ProjectTitle || f == TaskTitle || f == ChannelId || f == RootPostId
  }

  /** `d2` holds every context field of `d` unchanged. */
  ghost predicate KeepsContext(d: Dialog, d2: Dialog) {
    forall f :: Context(f) && f in d ==> f in d2 && d2[f] == d[f]
  }

  /** Only the dialog under `key` differs between the two worlds. */
  ghost predicate OnlyAt(before: World, after: World, key: Key) {
    forall k: Key :: k != key ==>
      (k in before.dialogs <==> k in after.dialogs) && (k in before.dialogs ==> before.dialogs[k] == after.dialogs[k])
  }

  /** A `set_state` that writes no context field keeps the context. */
  lemma SetStKeeps(w: World, key: Key, data: Dialog, now: real)
    requires forall f :: f in data ==> !Context(f)
    ensures KeepsContext(Cur(w, key), Cur(SetSt(w, key, data, now), key))
  {
    forall f | Context(f) && f in Cur(w, key)
      ensures f in Cur(SetSt(w, key, data, now), key) && Cur(SetSt(w, key, data, now), key)[f] == Cur(w, key)[f]
    {
      MergeAt(Cur(w, key), data, now, f);
    }
  }

  /**
   * `after` follows from `before` by writes to the dialog under `key` that
   * keep its context, and by calls added after those already made; the
   * channel defaults are untouched.
   */
  ghost predicate Local(before: World, after: World, key: Key) {
    OnlyAt(before, after, key) && after.defaults == before.defaults && Extends(before, after) &&
    KeepsContext(Cur(before, key), Cur(after, key))
  }

  lemma SetStOnlyAt(w: World, key: Key, data: Dialog, now: real)
    ensures OnlyAt(w, SetSt(w, key, data, now), key)
  {
  }

  lemma SetStExtends(w: World, key: Key, data: Dialog, now: real)
    ensures Extends(w, SetSt(w, key, data, now))
  {
  }

  lemma LocalSetSt(w: World, key: Key, data: Dialog, now: real)
    requires forall f :: f in data ==> !Context(f)
    ensures Local(w, SetSt(w, key, data, now), key)
  {
    SetStOnlyAt(w, key, data, now);
    SetStExtends(w, key, data, now);
    SetStKeeps(w, key, data, now);
  }

  lemma LocalSend(w: World, e: Effect, key: Key)
    ensures Local(w, Send(w, e), key)
  {
  }

  lemma LocalTrans(a: World, b: World, c: World, key: Key)
    requires Local(a, b, key) && Local(b, c, key)
    ensures Local(a, c, key)
  {
    assert c.effects[..|a.effects|] == c.effects[..|b.effects|][..|a.effects|];
  }

  /** What `set_state` leaves in one field of the record under `key`. */
  lemma SetStAt(w: World, key: Key, data: Dialog, now: real, f: Field)
    requires f != UpdatedAt && f != CreatedAt
    ensures var d := Cur(SetSt(w, key, data, now), key);
      && (f in data ==> f in d && d[f] == data[f])
      && (f !in data ==> (f in d <==> f in Cur(w, key)) && (f in d ==> d[f] == Cur(w, key)[f]))
  {
    MergeAt(Cur(w, key), data, now, f);
  }

  /** `set_state` stores every field it is given. */
  lemma SetStWrites(w: World, key: Key, data: Dialog, now: real)
    requires CreatedAt !in data && UpdatedAt !in data
    ensures forall f :: f in data ==> f in Cur(SetSt(w, key, data, now), key) && Cur(SetSt(w, key, data, now), key)[f] == data[f]
  {
    forall f | f in data
      ensures f in Cur(SetSt(w, key, data, now), key) && Cur(SetSt(w, key, data, now), key)[f] == data[f]
    {
      MergeAt(Cur(w, key), data, now, f);
    }
  }

  /** `set_state` keeps every field it is not given, except the update stamp. */
  lemma SetStKeepsRest(w: World, key: Key, data: Dialog, now: real)
    ensures forall f :: f in Cur(w, key) && f !in data && f != UpdatedAt ==>
      f in Cur(SetSt(w, key, data, now), key) && Cur(SetSt(w, key, data, now), key)[f] == Cur(w, key)[f]
  {
    forall f | f in Cur(w, key) && f !in data && f != UpdatedAt
      ensures f in Cur(SetSt(w, key, data, now), key) && Cur(SetSt(w, key, data, now), key)[f] == Cur(w, key)[f]
    {
      MergeAt(Cur(w, key), data, now, f);
    }
  }

  /** A call changes no dialog. */
  lemma SendCur(w: World, e: Effect, key: Key)
    ensures Cur(Send(w, e), key) == Cur(w, key)
  {
  }

  /** A `set_state` that does not write `post_ids` keeps the service posts. */
  lemma SetStPostIds(w: World, key: Key, data: Dialog, now: real)
    requires PostIds !in data
    ensures PostIdsOf(Cur(SetSt(w, key, data, now), key)) == PostIdsOf(Cur(w, key))
  {
    SetStAt(w, key, data, now, PostIds);
  }

  // ---------------------------------------------------------------------------
  // After a project is known
  // ---------------------------------------------------------------------------

  /** Choosing the only board: it fails exactly when the board has no id or the columns cannot be listed. */
  lemma {:induction false} OneBoardOutcome(w: World, key: Key, channel: string, task: string, board: Entity,
                                           remote: Remote, now: real)
    ensures var r := OneBoard(w, key, channel, task, board, remote, now);
      var d := Cur(r.w, key);
      && (r.ok <==> board.id.Some? && remote.columns.Some?)
      && (board.id.Some? ==> AtStep(d, ChooseBoardStep) && d[BoardId] == Str(board.id.value))
      && (board.id.None? ==> r.w == w)
      && (r.ok && remote.columns.value == [] ==> PostIdsOf(d) == PostIdsOf(Cur(w, key)))
      && (r.ok && remote.columns.value != [] ==>
            && ColumnOptions in d && d[ColumnOptions] == Titles(OptionTitles(remote.columns.value))
            && PostIdsOf(d) == PostIdsOf(Cur(w, key)) + [remote.postedId])
  {
    if board.id.Some? {
      var boardTitle := board.title.GetOr("без названия");
      var data := map[Step := Str(ChooseBoardStep), BoardId := Str(board.id.value), BoardTitle := Str(boardTitle)];
      var w1 := SetSt(w, key, data, now);
      SetStAt(w, key, data, now, Step);
      SetStAt(w, key, data, now, BoardId);
      SetStPostIds(w, key, data, now);
      if remote.columns.Some? && remote.columns.value != [] {
        var cols := map[ColumnOptions := Titles(OptionTitles(remote.columns.value))];
        var w2 := SetSt(w1, key, cols, now);
        SetStAt(w1, key, cols, now, Step);
        SetStAt(w1, key, cols, now, BoardId);
        SetStAt(w1, key, cols, now, ColumnOptions);
        SetStPostIds(w1, key, cols, now);
        var w3 := Send(w2, Post(channel, Reply(key), ColumnPrompt(task, PromptChoices(remote.columns.value))));
        AddPostIdSpec(w3, key, remote.postedId, now);
      }
    }
  }

  /** Several boards: their titles are stored and the board prompt's id joins the service posts. */
  lemma {:induction false} ManyBoardsOutcome(w: World, key: Key, channel: string, task: string, projectTitle: string,
                                             boards: seq<Entity>, remote: Remote, now: real)
    requires |boards| >= 2
    ensures var r := WithProject(w, key, channel, task, projectTitle, boards, remote, now);
      var d := Cur(r.w, key);
      && r.ok && BoardOptions in d && d[BoardOptions] == Titles(OptionTitles(boards))
      && PostIdsOf(d) == PostIdsOf(Cur(w, key)) + [remote.postedId]
      && Added(w, r.w) == [Post(channel, Reply(key), BoardPrompt(task, PromptChoices(boards)))]
  {
    var opts := map[BoardOptions := Titles(OptionTitles(boards))];
    var w1 := SetSt(w, key, opts, now);
    SetStAt(w, key, opts, now, BoardOptions);
    SetStPostIds(w, key, opts, now);
    var w2 := Send(w1, Post(channel, Reply(key), BoardPrompt(task, PromptChoices(boards))));
    AddPostIdSpec(w2, key, remote.postedId, now);
  }

  /** The one-board step writes only the dialog under `key`, keeps its context, and only adds calls. */
  lemma {:induction false} OneBoardFrame(w: World, key: Key, channel: string, task: string, board: Entity,
                                         remote: Remote, now: real)
    ensures Local(w, OneBoard(w, key, channel, task, board, remote, now).w, key)
  {
    if board.id.Some? {
      var boardTitle := board.title.GetOr("без названия");
      var data := map[Step := Str(ChooseBoardStep), BoardId := Str(board.id.value), BoardTitle := Str(boardTitle)];
      var w1 := SetSt(w, key, data, now);
      LocalSetSt(w, key, data, now);
      if remote.columns.Some? {
        if remote.columns.value == [] {
          LocalSend(w1, Post(channel, Reply(key), NoColumns(boardTitle)), key);
          LocalTrans(w, w1, Send(w1, Post(channel, Reply(key), NoColumns(boardTitle))), key);
        } else {
          var cols := map[ColumnOptions := Titles(OptionTitles(remote.columns.value))];
          var w2 := SetSt(w1, key, cols, now);
          LocalSetSt(w1, key, cols, now);
          var e := Post(channel, Reply(key), ColumnPrompt(task, PromptChoices(remote.columns.value)));
          var w3 := Send(w2, e);
          LocalSend(w2, e, key);
          LocalSetSt(w3, key, map[PostIds := Ids(PostIdsOf(Cur(w3, key)) + [remote.postedId])], now);
          LocalTrans(w, w1, w2, key);
          LocalTrans(w, w2, w3, key);
          LocalTrans(w, w3, AddPostId(w3, key, remote.postedId, now), key);
        }
      }
    }
  }

  /**
   * Whatever the boards, the step writes only the dialog under `key`, keeps
   * its context fields and the channel defaults, and only adds calls; with
   * no board it only posts the notice.
   */
  lemma {:induction false} WithProjectFrame(w: World, key: Key, channel: string, task: string, projectTitle: string,
                                            boards: seq<Entity>, remote: Remote, now: real)
    ensures var r := WithProject(w, key, channel, task, projectTitle, boards, remote, now);
      && Local(w, r.w, key)
      && (|boards| == 0 ==> r.ok && r.w.dialogs == w.dialogs && Added(w, r.w) == [Post(channel, Reply(key), NoBoards(projectTitle))])
  {
    if |boards| == 0 {
      LocalSend(w, Post(channel, Reply(key), NoBoards(projectTitle)), key);
    } else if |boards| == 1 {
      OneBoardFrame(w, key, channel, task, boards[0], remote, now);
    } else if |boards| >= 2 {
      var opts := map[BoardOptions := Titles(OptionTitles(boards))];
      var w1 := SetSt(w, key, opts, now);
      LocalSetSt(w, key, opts, now);
      var w2 := Send(w1, Post(channel, Reply(key), BoardPrompt(task, PromptChoices(boards))));
      LocalSend(w1, Post(channel, Reply(key), BoardPrompt(task, PromptChoices(boards))), key);
      LocalSetSt(w2, key, map[PostIds := Ids(PostIdsOf(Cur(w2, key)) + [remote.postedId])], now);
      LocalTrans(w, w1, w2, key);
      LocalTrans(w, w2, AddPostId(w2, key, remote.postedId, now), key);
    }
  }

  // ---------------------------------------------------------------------------
  // Steps confined to one user
  // ---------------------------------------------------------------------------

  /** Only `user`'s dialogs change, and calls are only added. */
  ghost predicate Confined(before: World, after: World, user: string) {
    SameForOthers(before, after, user) && Extends(before, after)
  }

  lemma LocalConfined(a: World, b: World, key: Key)
    requires Local(a, b, key)
    ensures Confined(a, b, key.0)
  {
  }

  lemma ConfinedTrans(a: World, b: World, c: World, user: string)
    requires Confined(a, b, user) && Confined(b, c, user)
    ensures Confined(a, c, user)
  {
    assert c.effects[..|a.effects|] == c.effects[..|b.effects|][..|a.effects|];
  }

  lemma ConfinedSetSt(w: World, key: Key, data: Dialog, now: real)
    ensures Confined(w, SetSt(w, key, data, now), key.0)
  {
    SetStExtends(w, key, data, now);
  }

  lemma ConfinedClear(w: World, key: Key)
    ensures Confined(w, Clear(w, key), key.0)
  {
  }

  lemma ConfinedPut(w: World, key: Key, d: Dialog)
    ensures Confined(w, Put(w, key, d), key.0)
  {
  }

  lemma ConfinedSend(w: World, e: Effect, user: string)
    ensures Confined(w, Send(w, e), user)
  {
  }

  // ---------------------------------------------------------------------------
  // The choice steps
  // ---------------------------------------------------------------------------

  /** `CHOOSE_PROJECT` fails exactly when the boards cannot be listed or the only board cannot be chosen. */
  lemma {:induction false} ChooseProjectFails(w: World, p: Press, selected: Option<string>, remote: Remote, now: real)
    ensures var r := ChooseProject(w, p, selected, remote, now);
      && (!Truthful(selected) ==> r == Run(w, true))
      && (Truthful(selected) ==>
            (r.ok <==> remote.boards.Some? &&
                       (|remote.boards.value| == 1 ==> remote.boards.value[0].id.Some? && remote.columns.Some?)))
  {
    if Truthful(selected) && remote.boards.Some? {
      var projectTitle := TitleIn(Cur(w, p.key), ProjectOptions, selected.value, "без названия");
      var w1 := SetSt(w, p.key, map[Step := Str(ChooseProjectStep), TaskTitle := p.title, ProjectId := Str(selected.value),
                                    ProjectTitle := Str(projectTitle), ChannelId := Str(p.channel)], now);
      var task := Render(p.title);
      var w2 := Send(w1, Patch(p.post, ProjectChosen(task, projectTitle)));
      var boards := remote.boards.value;
      if |boards| == 0 {
      } else if |boards| == 1 {
        OneBoardOutcome(w2, p.key, p.channel, task, boards[0], remote, now);
      } else {
        ManyBoardsOutcome(w2, p.key, p.channel, task, projectTitle, boards, remote, now);
      }
    }
  }

  /** `CHOOSE_PROJECT` changes only the user's dialogs, only adds calls and leaves the channel defaults alone. */
  lemma {:induction false} ChooseProjectFrame(w: World, p: Press, selected: Option<string>, remote: Remote, now: real)
    ensures var r := ChooseProject(w, p, selected, remote, now);
      Confined(w, r.w, p.key.0) && r.w.defaults == w.defaults
  {
    if Truthful(selected) {
      var projectTitle := TitleIn(Cur(w, p.key), ProjectOptions, selected.value, "без названия");
      var data := map[Step := Str(ChooseProjectStep), TaskTitle := p.title, ProjectId := Str(selected.value),
                      ProjectTitle := Str(projectTitle), ChannelId := Str(p.channel)];
      var w1 := SetSt(w, p.key, data, now);
      ConfinedSetSt(w, p.key, data, now);
      if remote.boards.Some? {
        var task := Render(p.title);
        var e := Patch(p.post, ProjectChosen(task, projectTitle));
        var w2 := Send(w1, e);
        WithProjectFrame(w2, p.key, p.channel, task, projectTitle, remote.boards.value, remote, now);
        var r := WithProject(w2, p.key, p.channel, task, projectTitle, remote.boards.value, remote, now);
        LocalConfined(w2, r.w, p.key);
        ConfinedSend(w1, e, p.key.0);
        ConfinedTrans(w1, w2, r.w, p.key.0);
        ConfinedTrans(w, w1, r.w, p.key.0);
      }
    }
  }

  /**
   * `CHOOSE_PROJECT` with a selection stores the project (with the title the
   * project prompt offered), the YouGile task title and the channel, and what follows
   * keeps them whatever the boards.
   */
  lemma {:induction false} ChooseProjectStores(w: World, p: Press, selected: Option<string>, remote: Remote, now: real)
    requires Truthful(selected)
    ensures var d := Cur(ChooseProject(w, p, selected, remote, now).w, p.key);
      && ProjectId in d && d[ProjectId] == Str(selected.value)
      && ProjectTitle in d && d[ProjectTitle] == Str(TitleIn(Cur(w, p.key), ProjectOptions, selected.value, "без названия"))
      && TaskTitle in d && d[TaskTitle] == p.title
      && ChannelId in d && d[ChannelId] == Str(p.channel)
  {
    var projectTitle := TitleIn(Cur(w, p.key), ProjectOptions, selected.value, "без названия");
    var data := map[Step := Str(ChooseProjectStep), TaskTitle := p.title, ProjectId := Str(selected.value),
                    ProjectTitle := Str(projectTitle), ChannelId := Str(p.channel)];
    var w1 := SetSt(w, p.key, data, now);
    SetStWrites(w, p.key, data, now);
    var d1 := Cur(w1, p.key);
    assert d1[ProjectId] == Str(selected.value) && d1[ProjectTitle] == Str(projectTitle);
    assert d1[TaskTitle] == p.title && d1[ChannelId] == Str(p.channel);
    if remote.boards.Some? {
      var task := Render(p.title);
      var w2 := Send(w1, Patch(p.post, ProjectChosen(task, projectTitle)));
      assert Cur(w2, p.key) == d1;
      var r := WithProject(w2, p.key, p.channel, task, projectTitle, remote.boards.value, remote, now);
      assert ChooseProject(w, p, selected, remote, now) == r;
      WithProjectFrame(w2, p.key, p.channel, task, projectTitle, remote.boards.value, remote, now);
      assert KeepsContext(d1, Cur(r.w, p.key));
    }
  }

  /** `CHOOSE_BOARD` changes only the user's dialogs, only adds calls and leaves the channel defaults alone. */
  lemma {:induction false} ChooseBoardFrame(w: World, p: Press, selected: Option<string>, ctxProjectId: Option<string>,
                                            remote: Remote, now: real)
    ensures var r := ChooseBoard(w, p, selected, ctxProjectId, remote, now);
      Confined(w, r.w, p.key.0) && r.w.defaults == w.defaults
  {
    if Truthful(selected) {
      var user := p.key.0;
      var state := Cur(w, p.key);
      var boardTitle := TitleIn(state, BoardOptions, selected.value, "без названия");
      var data := map[Step := Str(ChooseBoardStep), ProjectId := OptValue(Or(GetStr(state, ProjectId), ctxProjectId)),
                      BoardId := Str(selected.value), BoardTitle := Str(boardTitle)];
      var w1 := SetSt(w, p.key, data, now);
      ConfinedSetSt(w, p.key, data, now);
      if remote.columns.Some? {
        if remote.columns.value == [] {
          ConfinedSend(w1, Patch(p.post, NoColumns(boardTitle)), user);
          ConfinedTrans(w, w1, Send(w1, Patch(p.post, NoColumns(boardTitle))), user);
        } else {
          var columns := remote.columns.value;
          var task := Render(p.title);
          var cols := map[ColumnOptions := Titles(OptionTitles(columns))];
          var w2 := SetSt(w1, p.key, cols, now);
          ConfinedSetSt(w1, p.key, cols, now);
          var e3 := Patch(p.post, BoardChosen(task, boardTitle));
          var w3 := Send(w2, e3);
          ConfinedSend(w2, e3, user);
          var e4 := Post(p.channel, Thread(p), ColumnPrompt(task, PromptChoices(columns)));
          var w4 := Send(w3, e4);
          ConfinedSend(w3, e4, user);
          ConfinedSetSt(w4, p.key, map[PostIds := Ids(PostIdsOf(Cur(w4, p.key)) + [remote.postedId])], now);
          ConfinedTrans(w, w1, w2, user);
          ConfinedTrans(w, w2, w3, user);
          ConfinedTrans(w, w3, w4, user);
          ConfinedTrans(w, w4, AddPostId(w4, p.key, remote.postedId, now), user);
        }
      }
    }
  }


  /** The record `CHOOSE_BOARD` writes, and what the column prompt adds to it, keep the board and the project. */
  lemma BoardRecord(st: Dialog, boardId: string, boardTitle: string, ctxProjectId: Option<string>,
                    columns: Value, id: string, now: real)
    ensures var d1 := Merge(st, map[Step := Str(ChooseBoardStep), ProjectId := OptValue(Or(GetStr(st, ProjectId), ctxProjectId)),
                                   BoardId := Str(boardId), BoardTitle := Str(boardTitle)], now);
      var d2 := Merge(d1, map[ColumnOptions := columns], now);
      var d3 := Merge(d2, map[PostIds := Ids(PostIdsOf(d2) + [id])], now);
      && AtStep(d1, ChooseBoardStep) && d1[BoardId] == Str(boardId) && d1[BoardTitle] == Str(boardTitle)
      && AtStep(d3, ChooseBoardStep) && d3[BoardId] == Str(boardId) && d3[BoardTitle] == Str(boardTitle)
      && (GetTruthy(st, ProjectId).Some? ==> d1[ProjectId] == st[ProjectId] && d3[ProjectId] == st[ProjectId])
      && PostIdsOf(d1) == PostIdsOf(st) && PostIdsOf(d3) == PostIdsOf(st) + [id]
  {
  }

  /**
   * `CHOOSE_BOARD` with a selection stores the board with the title the
   * board prompt offered and keeps a project id already stored (when not
   * empty); it fails exactly when the columns cannot be listed, and with
   * columns the column prompt's id joins the service posts.
   */
  lemma {:induction false} ChooseBoardOutcome(w: World, p: Press, selected: Option<string>, ctxProjectId: Option<string>,
                                              remote: Remote, now: real)
    requires Truthful(selected)
    ensures var r := ChooseBoard(w, p, selected, ctxProjectId, remote, now);
      var d := Cur(r.w, p.key);
      var st := Cur(w, p.key);
      && (r.ok <==> remote.columns.Some?)
      && AtStep(d, ChooseBoardStep) && d[BoardId] == Str(selected.value)
      && BoardTitle in d && d[BoardTitle] == Str(TitleIn(st, BoardOptions, selected.value, "без названия"))
      && (GetTruthy(st, ProjectId).Some? ==> ProjectId in d && d[ProjectId] == st[ProjectId])
      && (r.ok ==> PostIdsOf(d) == PostIdsOf(st) + (if remote.columns.value == [] then [] else [remote.postedId]))
  {
    var boardId := selected.value;
    var st := Cur(w, p.key);
    var boardTitle := TitleIn(st, BoardOptions, boardId, "без названия");
    var data := map[Step := Str(ChooseBoardStep), ProjectId := OptValue(Or(GetStr(st, ProjectId), ctxProjectId)),
                    BoardId := Str(boardId), BoardTitle := Str(boardTitle)];
    var w1 := SetSt(w, p.key, data, now);
    var d1 := Merge(st, data, now);
    assert Cur(w1, p.key) == d1;
    var columns := if remote.columns.Some? then remote.columns.value else [];
    var cv := Titles(OptionTitles(columns));
    BoardRecord(st, boardId, boardTitle, ctxProjectId, cv, remote.postedId, now);
    if remote.columns.Some? && columns != [] {
      var task := Render(p.title);
      var w2 := SetSt(w1, p.key, map[ColumnOptions := cv], now);
      var d2 := Merge(d1, map[ColumnOptions := cv], now);
      assert Cur(w2, p.key) == d2;
      var e1 := Patch(p.post, BoardChosen(task, boardTitle));
      var e2 := Post(p.channel, Thread(p), ColumnPrompt(task, PromptChoices(columns)));
      var w4 := Send(Send(w2, e1), e2);
      SendCur(w2, e1, p.key);
      SendCur(Send(w2, e1), e2, p.key);
      assert Cur(AddPostId(w4, p.key, remote.postedId, now), p.key) == Merge(d2, map[PostIds := Ids(PostIdsOf(d2) + [remote.postedId])], now);
      assert ChooseBoard(w, p, selected, ctxProjectId, remote, now).w == AddPostId(w4, p.key, remote.postedId, now);
    } else if remote.columns.Some? {
      SendCur(w1, Patch(p.post, NoColumns(boardTitle)), p.key);
    }
  }

  /** `CHOOSE_COLUMN` changes only the user's dialogs, only adds calls and leaves the channel defaults alone. */
  lemma {:induction false} ChooseColumnFrame(w: World, p: Press, selected: Option<string>, ctxProjectId: Option<string>,
                                             ctxBoardId: Option<string>, remote: Remote, now: real)
    ensures var r := ChooseColumn(w, p, selected, ctxProjectId, ctxBoardId, remote, now);
      Confined(w, r.w, p.key.0) && r.w.defaults == w.defaults
  {
  }

  /** `d` is at `CHOOSE_COLUMN` with `columnId`, keeping the project and board of `st` (when not empty). */
  ghost predicate ColumnStored(st: Dialog, d: Dialog, columnId: string) {
    && AtStep(d, ChooseColumnStep) && ColumnId in d && d[ColumnId] == Str(columnId)
    && (GetTruthy(st, ProjectId).Some? ==> ProjectId in d && d[ProjectId] == st[ProjectId])
    && (GetTruthy(st, BoardId).Some? ==> BoardId in d && d[BoardId] == st[BoardId])
  }

  /** The record `CHOOSE_COLUMN` writes, and what the assignee prompt adds to it, keep the column, board and project. */
  lemma ColumnRecord(st: Dialog, columnId: string, ctxProjectId: Option<string>, ctxBoardId: Option<string>,
                     id: string, now: real)
    ensures var d1 := Merge(st, map[Step := Str(ChooseColumnStep), ProjectId := OptValue(Or(GetStr(st, ProjectId), ctxProjectId)),
                                   BoardId := OptValue(Or(GetStr(st, BoardId), ctxBoardId)), ColumnId := Str(columnId)], now);
      var d3 := Merge(d1, map[PostIds := Ids(PostIdsOf(d1) + [id])], now);
      ColumnStored(st, d1, columnId) && ColumnStored(st, d3, columnId) && PostIdsOf(d3) == PostIdsOf(st) + [id]
  {
  }

  /**
   * `CHOOSE_COLUMN` with a selection stores the column and keeps the project
   * and board already stored (when not empty), whether or not it fails.
   */
  lemma {:induction false} ChooseColumnStores(w: World, p: Press, selected: Option<string>, ctxProjectId: Option<string>,
                                              ctxBoardId: Option<string>, remote: Remote, now: real)
    requires Truthful(selected)
    ensures ColumnStored(Cur(w, p.key), Cur(ChooseColumn(w, p, selected, ctxProjectId, ctxBoardId, remote, now).w, p.key), selected.value)
  {
    var st := Cur(w, p.key);
    var data := map[Step := Str(ChooseColumnStep), ProjectId := OptValue(Or(GetStr(st, ProjectId), ctxProjectId)),
                    BoardId := OptValue(Or(GetStr(st, BoardId), ctxBoardId)), ColumnId := Str(selected.value)];
    var w1 := SetSt(w, p.key, data, now);
    var d1 := Merge(st, data, now);
    assert Cur(w1, p.key) == d1;
    ColumnRecord(st, selected.value, ctxProjectId, ctxBoardId, remote.postedId, now);
    if remote.members.Some? && AssigneeChoices(remote.members.value).Some? {
      var task := Render(p.title);
      var e1 := Patch(p.post, ColumnChosen(task, TitleIn(st, ColumnOptions, selected.value, "без названия")));
      var e2 := Post(p.channel, Thread(p), AssigneePrompt(task, AssigneeChoices(remote.members.value).value));
      var w3 := Send(Send(w1, e1), e2);
      SendCur(w1, e1, p.key);
      SendCur(Send(w1, e1), e2, p.key);
      assert Cur(AddPostId(w3, p.key, remote.postedId, now), p.key) == Merge(d1, map[PostIds := Ids(PostIdsOf(d1) + [remote.postedId])], now);
      assert ChooseColumn(w, p, selected, ctxProjectId, ctxBoardId, remote, now).w == AddPostId(w3, p.key, remote.postedId, now);
    }
  }

  /** `CHOOSE_COLUMN` with a selection fails exactly when the members cannot be listed or give no assignee choice. */
  lemma {:induction false} ChooseColumnFails(w: World, p: Press, selected: Option<string>, ctxProjectId: Option<string>,
                                             ctxBoardId: Option<string>, remote: Remote, now: real)
    requires Truthful(selected)
    ensures ChooseColumn(w, p, selected, ctxProjectId, ctxBoardId, remote, now).ok <==>
      remote.members.Some? && forall i :: 0 <= i < |remote.members.value| ==> remote.members.value[i].id.Some?
  {
  }

  /** A `CHOOSE_COLUMN` that goes through posts the assignee prompt last and records its id. */
  lemma {:induction false} ChooseColumnPrompt(w: World, p: Press, selected: Option<string>, ctxProjectId: Option<string>,
                                              ctxBoardId: Option<string>, remote: Remote, now: real)
    requires Truthful(selected) && remote.members.Some?
    requires AssigneeChoices(remote.members.value).Some?
    ensures var r := ChooseColumn(w, p, selected, ctxProjectId, ctxBoardId, remote, now);
      && PostIdsOf(Cur(r.w, p.key)) == PostIdsOf(Cur(w, p.key)) + [remote.postedId]
      && r.w.effects[|r.w.effects| - 1] ==
           Post(p.channel, Thread(p), AssigneePrompt(Render(p.title), AssigneeChoices(remote.members.value).value))
  {
    var st := Cur(w, p.key);
    var data := map[Step := Str(ChooseColumnStep), ProjectId := OptValue(Or(GetStr(st, ProjectId), ctxProjectId)),
                    BoardId := OptValue(Or(GetStr(st, BoardId), ctxBoardId)), ColumnId := Str(selected.value)];
    var w1 := SetSt(w, p.key, data, now);
    SetStPostIds(w, p.key, data, now);
    var task := Render(p.title);
    var e1 := Patch(p.post, ColumnChosen(task, TitleIn(st, ColumnOptions, selected.value, "без названия")));
    var e2 := Post(p.channel, Thread(p), AssigneePrompt(task, AssigneeChoices(remote.members.value).value));
    var w3 := Send(Send(w1, e1), e2);
    SendCur(w1, e1, p.key);
    SendCur(Send(w1, e1), e2, p.key);
    AddPostIdSpec(w3, p.key, remote.postedId, now);
    assert ChooseColumn(w, p, selected, ctxProjectId, ctxBoardId, remote, now).w == AddPostId(w3, p.key, remote.postedId, now);
  }

  /** `CHOOSE_ASSIGNEE` changes only the user's dialogs, only adds calls and leaves the channel defaults alone. */
  lemma {:induction false} ChooseAssigneeFrame(w: World, p: Press, selected: Option<string>, remote: Remote, now: real)
    ensures var r := ChooseAssignee(w, p, selected, remote, now);
      Confined(w, r, p.key.0) && r.defaults == w.defaults
  {
  }

  /** The records `CHOOSE_ASSIGNEE` writes, and what the deadline prompt adds, keep the assignee and the column. */
  lemma AssigneeRecord(st: Dialog, assigneeId: string, name: string, id: string, now: real)
    ensures var d1 := Merge(st, map[Step := Str(ChooseAssigneeStep), AssigneeId := Str(assigneeId)], now);
      var d2 := Merge(d1, map[AssigneeName := Str(name)], now);
      var d3 := Merge(d2, map[PostIds := Ids(PostIdsOf(d2) + [id])], now);
      && AtStep(d3, ChooseAssigneeStep) && d3[AssigneeId] == Str(assigneeId) && d3[AssigneeName] == Str(name)
      && (ColumnId in st ==> ColumnId in d3 && d3[ColumnId] == st[ColumnId])
  {
  }

  /**
   * `CHOOSE_ASSIGNEE` with a selection stores the assignee and a non-empty
   * name for it (the member's, or the id itself when the members cannot be
   * listed or none has the id), and keeps the column already stored.
   */
  lemma {:induction false} ChooseAssigneeStores(w: World, p: Press, selected: Option<string>, remote: Remote, now: real)
    requires Truthful(selected)
    ensures var d := Cur(ChooseAssignee(w, p, selected, remote, now), p.key);
      var st := Cur(w, p.key);
      && AtStep(d, ChooseAssigneeStep) && d[AssigneeId] == Str(selected.value)
      && AssigneeName in d && d[AssigneeName].Str? && d[AssigneeName].s != ""
      && (remote.members.None? || FirstMember(remote.members.value, selected.value).None? ==>
            d[AssigneeName] == Str(selected.value))
      && (ColumnId in st ==> ColumnId in d && d[ColumnId] == st[ColumnId])
  {
    var st := Cur(w, p.key);
    var data := map[Step := Str(ChooseAssigneeStep), AssigneeId := Str(selected.value)];
    var w1 := SetSt(w, p.key, data, now);
    var d1 := Merge(st, data, now);
    assert Cur(w1, p.key) == d1;
    var name := if remote.members.Some? then NameFor(remote.members.value, selected.value) else selected.value;
    var names := map[AssigneeName := Str(name)];
    var w2 := SetSt(w1, p.key, names, now);
    var d2 := Merge(d1, names, now);
    assert Cur(w2, p.key) == d2;
    var task := Render(p.title);
    var e1 := Patch(p.post, AssigneeChosen(task, name));
    var e2 := Post(p.channel, Thread(p), DeadlinePrompt(task));
    var w4 := Send(Send(w2, e1), e2);
    SendCur(w2, e1, p.key);
    SendCur(Send(w2, e1), e2, p.key);
    assert Cur(AddPostId(w4, p.key, remote.postedId, now), p.key) == Merge(d2, map[PostIds := Ids(PostIdsOf(d2) + [remote.postedId])], now);
    assert ChooseAssignee(w, p, selected, remote, now) == AddPostId(w4, p.key, remote.postedId, now);
    AssigneeRecord(st, selected.value, name, remote.postedId, now);
  }

  /** `CHOOSE_ASSIGNEE` with a selection posts the deadline prompt last and records its id. */
  lemma {:induction false} ChooseAssigneePrompt(w: World, p: Press, selected: Option<string>, remote: Remote, now: real)
    requires Truthful(selected)
    ensures var r := ChooseAssignee(w, p, selected, remote, now);
      && PostIdsOf(Cur(r, p.key)) == PostIdsOf(Cur(w, p.key)) + [remote.postedId]
      && r.effects[|r.effects| - 1] == Post(p.channel, Thread(p), DeadlinePrompt(Render(p.title)))
  {
    var data := map[Step := Str(ChooseAssigneeStep), AssigneeId := Str(selected.value)];
    var w1 := SetSt(w, p.key, data, now);
    SetStPostIds(w, p.key, data, now);
    var name := if remote.members.Some? then NameFor(remote.members.value, selected.value) else selected.value;
    var names := map[AssigneeName := Str(name)];
    var w2 := SetSt(w1, p.key, names, now);
    SetStPostIds(w1, p.key, names, now);
    var task := Render(p.title);
    var e1 := Patch(p.post, AssigneeChosen(task, name));
    var e2 := Post(p.channel, Thread(p), DeadlinePrompt(task));
    var w4 := Send(Send(w2, e1), e2);
    SendCur(w2, e1, p.key);
    SendCur(Send(w2, e1), e2, p.key);
    AddPostIdSpec(w4, p.key, remote.postedId, now);
  }

  // ---------------------------------------------------------------------------
  // The deadline and the creation of the YouGile task
  // ---------------------------------------------------------------------------

  /** What follows a created task changes only the user's dialogs, only adds calls and leaves the defaults alone. */
  lemma {:induction false} AfterCreationFrame(w: World, title: Value, state: Dialog, user: string, post: string,
                                              taskId: Option<string>, url: string, deadlineStr: string, postedId: string, now: real)
    ensures var r := AfterCreation(w, title, state, user, post, taskId, url, deadlineStr, postedId, now);
      Confined(w, r, user) && r.defaults == w.defaults
  {
    var root := GetStr(state, RootPostId);
    var channel := GetStr(state, ChannelId);
    var e1 := Patch(post, DeadlineSet(Render(title), deadlineStr));
    var w1 := Send(w, e1);
    ConfinedSend(w, e1, user);
    var w2 := w1;
    if Truthful(channel) {
      var e2 := Post(channel.value, RootOf(root), TaskCreated(Render(title), url));
      w2 := Send(w1, e2);
      ConfinedSend(w1, e2, user);
      ConfinedTrans(w, w1, w2, user);
    }
    var ids := if Truthful(channel) then PostIdsOf(state) + [postedId] else PostIdsOf(state);
    ConfinedSetSt(w2, (user, root.GetOr("")), AttachData(taskId, url, deadlineStr, ids), now);
    ConfinedTrans(w, w2, SetSt(w2, (user, root.GetOr("")), AttachData(taskId, url, deadlineStr, ids), now), user);
  }

  /**
   * `create_task_and_update_post` first sends the YouGile task's body, built from
   * the record; it fails exactly when the creation fails, and then nothing
   * but that call happened. Only the user's dialogs change.
   */
  lemma {:induction false} CreateTaskCalls(w: World, teamId: string, title: Value, state: Dialog, user: string,
                                           post: string, remote: Remote, now: real)
    ensures var r := CreateTaskAndUpdatePost(w, teamId, title, state, user, post, remote, now);
      && Confined(w, r.w, user) && r.w.defaults == w.defaults
      && |r.w.effects| > |w.effects| && r.w.effects[|w.effects|] == CreateTask(BodyFor(title, state, remote.author))
      && (r.ok <==> remote.creation.Created?)
      && (!r.ok ==> r.w.dialogs == w.dialogs && |r.w.effects| == |w.effects| + 1)
  {
    var e := CreateTask(BodyFor(title, state, remote.author));
    var w1 := Send(w, e);
    ConfinedSend(w, e, user);
    assert w1.effects[|w.effects|] == e;
    if remote.creation.Created? {
      var url := TaskLink(teamId, GetStr(state, ProjectTitle), remote.creation.taskProjectId);
      var tail := AfterCreation(w1, title, state, user, post, remote.creation.taskId, url, DeadlineStrOf(state), remote.postedId, now);
      AfterCreationFrame(w1, title, state, user, post, remote.creation.taskId, url, DeadlineStrOf(state), remote.postedId, now);
      ConfinedTrans(w, w1, tail, user);
      assert tail.effects[..|w1.effects|] == w1.effects;
      assert tail.effects[|w.effects|] == tail.effects[..|w1.effects|][|w.effects|];
    }
  }

  /** The record a created task leaves: waiting for attachments, with the YouGile task's id, link, deadline text and service posts. */
  lemma AttachRecord(prev: Dialog, taskId: Option<string>, url: string, deadlineStr: string, ids: seq<string>, now: real)
    ensures var d := Merge(prev, AttachData(taskId, url, deadlineStr, ids), now);
      && AtStep(d, OptionalAttachStep) && d[TaskId] == OptValue(taskId) && d[TaskUrl] == Str(url)
      && d[DeadlineStr] == Str(deadlineStr) && PostIdsOf(d) == ids && d[UpdatedAt] == Time(now)
      && KeepsContext(prev, d)
  {
    var data := AttachData(taskId, url, deadlineStr, ids);
    forall f | Context(f) && f in prev
      ensures f in Merge(prev, data, now) && Merge(prev, data, now)[f] == prev[f]
    {
      MergeAt(prev, data, now, f);
    }
  }

  /** Once the YouGile task exists, the dialog under the user and the record's root post is the old one merged with the attachment step's data. */
  lemma {:induction false} AfterCreationCur(w: World, title: Value, state: Dialog, user: string, post: string,
                                            taskId: Option<string>, url: string, deadlineStr: string, postedId: string, now: real)
    ensures var r := AfterCreation(w, title, state, user, post, taskId, url, deadlineStr, postedId, now);
      var k := (user, GetStr(state, RootPostId).GetOr(""));
      var ids := PostIdsOf(state) + (if Truthful(GetStr(state, ChannelId)) then [postedId] else []);
      && OnlyAt(w, r, k)
      && Cur(r, k) == Merge(Cur(w, k), AttachData(taskId, url, deadlineStr, ids), now)
  {
    var root := GetStr(state, RootPostId);
    var channel := GetStr(state, ChannelId);
    var k := (user, root.GetOr(""));
    var w1 := Send(w, Patch(post, DeadlineSet(Render(title), deadlineStr)));
    var w2 := if Truthful(channel) then Send(w1, Post(channel.value, RootOf(root), TaskCreated(Render(title), url))) else w1;
    assert w2.dialogs == w.dialogs;
    var ids := if Truthful(channel) then PostIdsOf(state) + [postedId] else PostIdsOf(state);
    assert ids == PostIdsOf(state) + (if Truthful(channel) then [postedId] else []);
    SetStOnlyAt(w2, k, AttachData(taskId, url, deadlineStr, ids), now);
  }

  /**
   * Once the YouGile task exists, the dialog under the user and the record's root
   * post moves to `OPTIONAL_ATTACH`, storing the YouGile task's id, its link, the
   * deadline text and the service posts (with the "task created" post when
   * the record names a channel); its context fields and every other dialog
   * are kept, and its idle clock restarts at `now`.
   */
  lemma {:induction false} AfterCreationRecord(w: World, title: Value, state: Dialog, user: string, post: string,
                                               taskId: Option<string>, url: string, deadlineStr: string, postedId: string, now: real)
    ensures var r := AfterCreation(w, title, state, user, post, taskId, url, deadlineStr, postedId, now);
      var k := (user, GetStr(state, RootPostId).GetOr(""));
      var d := Cur(r, k);
      && OnlyAt(w, r, k)
      && AtStep(d, OptionalAttachStep) && d[TaskId] == OptValue(taskId) && d[TaskUrl] == Str(url)
      && d[DeadlineStr] == Str(deadlineStr) && d[UpdatedAt] == Time(now)
      && PostIdsOf(d) == PostIdsOf(state) + (if Truthful(GetStr(state, ChannelId)) then [postedId] else [])
      && KeepsContext(Cur(w, k), d)
  {
    var k := (user, GetStr(state, RootPostId).GetOr(""));
    var ids := PostIdsOf(state) + (if Truthful(GetStr(state, ChannelId)) then [postedId] else []);
    AfterCreationCur(w, title, state, user, post, taskId, url, deadlineStr, postedId, now);
    AttachRecord(Cur(w, k), taskId, url, deadlineStr, ids, now);
  }

  /** A created task's link points into the YouGile site, and the record holds it. */
  lemma {:induction false} CreateTaskRecord(w: World, teamId: string, title: Value, state: Dialog, user: string,
                                            post: string, remote: Remote, now: real)
    requires remote.creation.Created?
    ensures var r := CreateTaskAndUpdatePost(w, teamId, title, state, user, post, remote, now);
      var d := Cur(r.w, (user, GetStr(state, RootPostId).GetOr("")));
      && TaskUrl in d && d[TaskUrl].Str?
      && d[TaskUrl].s == TaskLink(teamId, GetStr(state, ProjectTitle), remote.creation.taskProjectId)
      && d[TaskUrl].s[..|YougileBase|] == YougileBase
  {
    var url := TaskLink(teamId, GetStr(state, ProjectTitle), remote.creation.taskProjectId);
    var w1 := Send(w, CreateTask(BodyFor(title, state, remote.author)));
    AfterCreationRecord(w1, title, state, user, post, remote.creation.taskId, url, DeadlineStrOf(state), remote.postedId, now);
  }

  /** The first record `CHOOSE_DEADLINE` writes is at its step, holds the choice and keeps the service posts. */
  lemma DeadlineStep(st: Dialog, choice: Option<string>, now: real)
    ensures var d1 := Merge(st, map[Step := Str(ChooseDeadlineStep), DeadlineChoice := OptValue(choice)], now);
      AtStep(d1, ChooseDeadlineStep) && d1[DeadlineChoice] == OptValue(choice) && PostIdsOf(d1) == PostIdsOf(st)
  {
    MergeAt(st, map[Step := Str(ChooseDeadlineStep), DeadlineChoice := OptValue(choice)], now, PostIds);
  }

  /** The records `CHOOSE_DEADLINE` writes keep the column, assignee, root, channel and project title, and hold the deadline given. */
  lemma DeadlineRecord(st: Dialog, choice: Option<string>, deadline: Value, now: real)
    ensures var d1 := Merge(st, map[Step := Str(ChooseDeadlineStep), DeadlineChoice := OptValue(choice)], now);
      var d2 := Merge(d1, map[Deadline := deadline], now);
      && GetStr(d2, ColumnId) == GetStr(st, ColumnId) && GetStr(d2, AssigneeId) == GetStr(st, AssigneeId)
      && GetStr(d2, RootPostId) == GetStr(st, RootPostId) && GetStr(d2, ChannelId) == GetStr(st, ChannelId)
      && GetStr(d2, ProjectTitle) == GetStr(st, ProjectTitle)
      && StoredDeadline(d2) == (if deadline.Day? then Some(deadline.date) else None)
  {
    var data1 := map[Step := Str(ChooseDeadlineStep), DeadlineChoice := OptValue(choice)];
    var d1 := Merge(st, data1, now);
    var data2 := map[Deadline := deadline];
    MergeGetStr(st, data1, now, ColumnId);
    MergeGetStr(d1, data2, now, ColumnId);
    MergeGetStr(st, data1, now, AssigneeId);
    MergeGetStr(d1, data2, now, AssigneeId);
    MergeGetStr(st, data1, now, RootPostId);
    MergeGetStr(d1, data2, now, RootPostId);
    MergeGetStr(st, data1, now, ChannelId);
    MergeGetStr(d1, data2, now, ChannelId);
    MergeGetStr(st, data1, now, ProjectTitle);
    MergeGetStr(d1, data2, now, ProjectTitle);
    MergeAt(d1, data2, now, Deadline);
  }



  /**
   * `CHOOSE_DEADLINE` with "custom" only stores the choice and asks for a
   * date; no task is created and the service posts are unchanged.
   */
  lemma {:induction false} ChooseDeadlineCustom(w: World, teamId: string, p: Press, remote: Remote, today: CivilDate, now: real)
    ensures var r := ChooseDeadline(w, teamId, p, Some("custom"), remote, today, now);
      var d := Cur(r.w, p.key);
      && r.ok && OnlyAt(w, r.w, p.key) && r.w.defaults == w.defaults
      && AtStep(d, ChooseDeadlineStep) && d[DeadlineChoice] == Str("custom")
      && PostIdsOf(d) == PostIdsOf(Cur(w, p.key))
      && Added(w, r.w) == [Patch(p.post, CustomDatePrompt(Render(p.title)))]
  {
    var data := map[Step := Str(ChooseDeadlineStep), DeadlineChoice := OptValue(Some("custom"))];
    var w1 := SetSt(w, p.key, data, now);
    assert Cur(w1, p.key) == Merge(Cur(w, p.key), data, now);
    DeadlineStep(Cur(w, p.key), Some("custom"), now);
    SetStOnlyAt(w, p.key, data, now);
    SendCur(w1, Patch(p.post, CustomDatePrompt(Render(p.title))), p.key);
  }

  /**
   * `CHOOSE_DEADLINE` with any other choice sends the YouGile task body with the
   * column and assignee stored earlier and the deadline the choice names (none
   * for "none", otherwise `calc_deadline`'s date); it then fails exactly when
   * the creation fails. A date past the calendar's end fails before any call.
   */
  lemma {:induction false} ChooseDeadlineCreates(w: World, teamId: string, p: Press, choice: Option<string>, remote: Remote,
                                                 today: CivilDate, now: real)
    requires choice != Some("custom")
    ensures var r := ChooseDeadline(w, teamId, p, choice, remote, today, now);
      var st := Cur(w, p.key);
      var date := if choice == Some("none") then None else CalcDeadline(choice, today);
      && (choice != Some("none") && date.None? ==> !r.ok && r.w.effects == w.effects)
      && (choice == Some("none") || date.Some? ==>
            && |r.w.effects| > |w.effects|
            && r.w.effects[|w.effects|] ==
                 CreateTask(TaskBodyFor(TitleArg(p.title), GetStr(st, ColumnId), Description(remote.author), GetStr(st, AssigneeId), date))
            && (r.ok <==> remote.creation.Created?))
  {
    var st := Cur(w, p.key);
    var data := map[Step := Str(ChooseDeadlineStep), DeadlineChoice := OptValue(choice)];
    var w1 := SetSt(w, p.key, data, now);
    var d1 := Merge(st, data, now);
    assert Cur(w1, p.key) == d1;
    var date := if choice == Some("none") then None else CalcDeadline(choice, today);
    if choice == Some("none") || date.Some? {
      var dl := if choice == Some("none") then Null else Day(date.value);
      var w2 := SetSt(w1, p.key, map[Deadline := dl], now);
      assert Cur(w2, p.key) == Merge(d1, map[Deadline := dl], now);
      DeadlineStep(st, choice, now);
      DeadlineRecord(st, choice, dl, now);
      CreateTaskCalls(w2, teamId, p.title, Cur(w2, p.key), p.key.0, p.post, remote, now);
      assert ChooseDeadline(w, teamId, p, choice, remote, today, now) ==
             CreateTaskAndUpdatePost(w2, teamId, p.title, Cur(w2, p.key), p.key.0, p.post, remote, now);
    }
  }

  /** `CHOOSE_DEADLINE` changes only the user's dialogs, only adds calls and leaves the channel defaults alone. */
  lemma {:induction false} ChooseDeadlineFrame(w: World, teamId: string, p: Press, choice: Option<string>, remote: Remote,
                                               today: CivilDate, now: real)
    ensures var r := ChooseDeadline(w, teamId, p, choice, remote, today, now);
      Confined(w, r.w, p.key.0) && r.w.defaults == w.defaults
  {
    var data := map[Step := Str(ChooseDeadlineStep), DeadlineChoice := OptValue(choice)];
    var w1 := SetSt(w, p.key, data, now);
    ConfinedSetSt(w, p.key, data, now);
    var date := if choice == Some("none") then None else CalcDeadline(choice, today);
    if choice == Some("custom") {
      ConfinedSend(w1, Patch(p.post, CustomDatePrompt(Render(p.title))), p.key.0);
      ConfinedTrans(w, w1, Send(w1, Patch(p.post, CustomDatePrompt(Render(p.title)))), p.key.0);
    } else if choice == Some("none") || date.Some? {
      var dl := if choice == Some("none") then Null else Day(date.value);
      var w2 := SetSt(w1, p.key, map[Deadline := dl], now);
      ConfinedSetSt(w1, p.key, map[Deadline := dl], now);
      CreateTaskCalls(w2, teamId, p.title, Cur(w2, p.key), p.key.0, p.post, remote, now);
      var r := CreateTaskAndUpdatePost(w2, teamId, p.title, Cur(w2, p.key), p.key.0, p.post, remote, now);
      ConfinedTrans(w, w1, w2, p.key.0);
      ConfinedTrans(w, w2, r.w, p.key.0);
    }
  }
}
