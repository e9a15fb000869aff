/**
 * Reading the interactive-action payload (`extract_selected_value`) and the
 * option lists the bot offers: the select options built from projects,
 * boards and columns, the id-to-title dictionaries it keeps in the dialog,
 * and the assignee options.
 */
module Payload {
  import opened Wrappers

  /** A `selected_option` as it arrives: absent or null, a string, or an object with an optional `value`. */
  datatype Raw = Missing | Text(s: string) | Object(value: Option<string>, otherKeys: bool)

  /** Python truthiness of a raw selection: a non-empty string or a non-empty object. */
  predicate Truthy(raw: Raw) {
    match raw
    case Missing => false
    case Text(s) => s != ""
    case Object(v, other) => v.Some? || other
  }

  /** What one raw selection reads as: the string itself, or the object's `value`. */
  function ValueOf(raw: Raw): Option<string> {
    match raw
    case Missing => None
    case Text(s) => Some(s)
    case Object(v, _) => v
  }

  /**
   * `extract_selected_value(data)`: the context's `selected_option` when it is
   * truthy, otherwise the one under `data`; a string is taken as it is and an
   * object gives its `value`.
   */
  function ExtractSelectedValue(ctxRaw: Raw, dataRaw: Raw): (r: Option<string>)
    ensures Truthy(ctxRaw) ==> r == ValueOf(ctxRaw)
    ensures !Truthy(ctxRaw) ==> r == ValueOf(dataRaw)
    ensures r.Some? && r.value != "" ==> Truthy(ctxRaw) || Truthy(dataRaw)
  {
    var raw := if Truthy(ctxRaw) then ctxRaw else dataRaw;
    match raw
    case Missing => None
    case Text(s) => Some(s)
    case Object(v, _) => v
  }

  // ---------------------------------------------------------------------------
  // Select options
  // ---------------------------------------------------------------------------

  /** A project, board or column as YouGile lists it; `None` is an absent (or null) key. */
  datatype Entity = Entity(id: Option<string>, title: Option<string>)

  /** One option of a select: the label shown and the value sent back. */
  datatype Choice = Choice(text: string, value: string)

  /** Entities with a falsy id are skipped everywhere. */
  predicate HasId(e: Entity) {
    e.id.Some? && e.id.value != ""
  }

  /** `e.get("title", "Без имени")`. */
  function TitleOf(e: Entity): string {
    e.title.GetOr("Без имени")
  }

  function ChoiceOf(e: Entity): Choice
    requires HasId(e)
  {
    Choice(TitleOf(e), e.id.value)
  }

  /**
   * The options of `build_project_select_for_task`, `build_board_select_for_task`
   * and `build_column_select_for_task`: one per entity with an id, in list order.
   */
  function PromptChoices(es: seq<Entity>): (r: seq<Choice>)
    ensures |r| <= |es|
    ensures forall c :: c in r ==> exists e :: e in es && HasId(e) && c == ChoiceOf(e)
    ensures forall e :: e in es && HasId(e) ==> ChoiceOf(e) in r
    ensures |es| == 1 && HasId(es[0]) ==> r == [ChoiceOf(es[0])]
    ensures |es| == 1 && !HasId(es[0]) ==> r == []
  {
    if es == [] then []
    else
      var rest := PromptChoices(es[1..]);
      assert forall e :: e in es[1..] ==> e in es;
      if HasId(es[0]) then [ChoiceOf(es[0])] + rest else rest
  }

  /**
   * The options of two lists one after the other are those of the first list
   * followed by those of the second: together with the one-entity case, the
   * options keep the order and the repetitions of the list.
   */
  lemma {:induction false} PromptChoicesAppend(a: seq<Entity>, b: seq<Entity>)
    ensures PromptChoices(a + b) == PromptChoices(a) + PromptChoices(b)
    decreases |a|
  {
    if a != [] {
      assert (a + b)[1..] == a[1..] + b;
      PromptChoicesAppend(a[1..], b);
    } else {
      assert a + b == b;
    }
  }

  /** Some entity of `es` has the id `id`. */
  predicate Lists(es: seq<Entity>, id: string) {
    exists e :: e in es && HasId(e) && e.id.value == id
  }

  /** `es[i]` is the last entity of `es` with its id. */
  predicate LastWithId(es: seq<Entity>, i: int)
    requires 0 <= i < |es| && HasId(es[i])
  {
    forall j :: i < j < |es| ==> !(HasId(es[j]) && es[j].id.value == es[i].id.value)
  }

  /**
   * `{e["id"]: e.get("title", "Без имени") for e in es if e.get("id")}`: the
   * keys are the listed ids, and a repeated id keeps the title of its last entity.
   */
  function OptionTitles(es: seq<Entity>): (m: map<string, string>)
    ensures forall id :: id in m <==> Lists(es, id)
    ensures forall i :: 0 <= i < |es| && HasId(es[i]) && LastWithId(es, i) ==> es[i].id.value in m && m[es[i].id.value] == TitleOf(es[i])
    decreases |es|
  {
    if es == [] then map[]
    else
      var init := es[..|es| - 1];
      var last := es[|es| - 1];
      var m := OptionTitles(init);
      assert forall e :: e in es <==> e in init || e == last;
      assert forall i :: 0 <= i < |init| ==> init[i] == es[i];
      if HasId(last) then m[last.id.value := TitleOf(last)] else m
  }

  /** The keys of that dictionary in insertion order: each id once, where it first appears. */
  function OptionIds(es: seq<Entity>): (ids: seq<string>)
    ensures forall id :: id in ids <==> Lists(es, id)
    ensures forall i, j :: 0 <= i < j < |ids| ==> ids[i] != ids[j]
    decreases |es|
  {
    if es == [] then []
    else
      var init := es[..|es| - 1];
      var last := es[|es| - 1];
      var ids := OptionIds(init);
      assert forall e :: e in es <==> e in init || e == last;
      if HasId(last) && last.id.value !in ids then ids + [last.id.value] else ids
  }

  /** `es[k]` is the first entity of `es` with its id. */
  predicate FirstWithId(es: seq<Entity>, k: int) {
    0 <= k < |es| && HasId(es[k]) &&
    forall j :: 0 <= j < k ==> !(HasId(es[j]) && es[j].id.value == es[k].id.value)
  }

  /**
   * The keys come in the order of their first appearance: an id that first
   * appears before another is listed before it.
   */
  lemma {:induction false} OptionIdsFirstOrder(es: seq<Entity>, k1: int, k2: int) returns (i1: int, i2: int)
    requires k1 < k2 && FirstWithId(es, k1) && FirstWithId(es, k2)
    ensures 0 <= i1 < i2 < |OptionIds(es)|
    ensures OptionIds(es)[i1] == es[k1].id.value && OptionIds(es)[i2] == es[k2].id.value
    decreases |es|
  {
    var n := |es|;
    var init, last := es[..n - 1], es[n - 1];
    var ids := OptionIds(init);
    assert forall j :: 0 <= j < n - 1 ==> init[j] == es[j];
    if k2 < n - 1 {
      assert FirstWithId(init, k1) && FirstWithId(init, k2);
      i1, i2 := OptionIdsFirstOrder(init, k1, k2);
    } else {
      assert Lists(init, es[k1].id.value) by { assert init[k1] in init; }
      assert !Lists(init, last.id.value) by {
        forall e | e in init && HasId(e) ensures e.id.value != last.id.value {
          var j :| 0 <= j < n - 1 && init[j] == e;
        }
      }
      assert OptionIds(es) == ids + [last.id.value];
      i1 :| 0 <= i1 < |ids| && ids[i1] == es[k1].id.value;
      i2 := |ids|;
    }
  }

  /** `[{"text": title, "value": pid} for pid, title in options.items()]`. */
  function DictChoices(es: seq<Entity>): (r: seq<Choice>)
    ensures |r| == |OptionIds(es)|
    ensures forall i :: 0 <= i < |r| ==>
      r[i].value == OptionIds(es)[i] && r[i].value in OptionTitles(es) && r[i].text == OptionTitles(es)[r[i].value]
  {
    var ids := OptionIds(es);
    var m := OptionTitles(es);
    seq(|ids|, i requires 0 <= i < |ids| => Choice(m[ids[i]], ids[i]))
  }

  /** The dictionary's options are exactly its entries, each offered once. */
  lemma DictChoicesExact(es: seq<Entity>, c: Choice)
    ensures c in DictChoices(es) <==> c.value in OptionTitles(es) && c.text == OptionTitles(es)[c.value]
  {
    var r, ids, m := DictChoices(es), OptionIds(es), OptionTitles(es);
    if c.value in m && c.text == m[c.value] {
      assert c.value in ids;
      var i :| 0 <= i < |ids| && ids[i] == c.value;
      assert r[i] == c;
    }
  }

  /** The value of the default-project option that means "no default project". */
  const NoneValue := "__none__"
  const NoneChoice := Choice("Не выбирать проект автоматически", NoneValue)

  /**
   * The default-project select of the channel menu lists the projects first and
   * the "no default" option last; the one offered when a bot joins a channel
   * puts it first.
   */
  function DefaultProjectChoices(es: seq<Entity>, noneFirst: bool): (r: seq<Choice>)
    ensures |r| == |OptionIds(es)| + 1
    ensures (if noneFirst then r[0] else r[|r| - 1]) == NoneChoice
    ensures forall i :: 0 <= i < |r| && r[i] != NoneChoice ==> r[i] in DictChoices(es)
    ensures forall c :: c in DictChoices(es) ==> c in r
    ensures forall i :: 0 <= i < |DictChoices(es)| ==> r[if noneFirst then i + 1 else i] == DictChoices(es)[i]
  {
    if noneFirst then [NoneChoice] + DictChoices(es) else DictChoices(es) + [NoneChoice]
  }

  // ---------------------------------------------------------------------------
  // Assignees
  // ---------------------------------------------------------------------------

  /** A project member as YouGile lists it; `None` is an absent key. */
  datatype Member = Member(id: Option<string>, realName: Option<string>, email: Option<string>)

  /** `u.get("realName", "") or u.get("email", "Без имени")`. */
  function MemberLabel(u: Member): (s: string)
    ensures u.realName.Some? && u.realName.value != "" ==> s == u.realName.value
    ensures (u.realName.None? || u.realName.value == "") && u.email.Some? ==> s == u.email.value
    ensures (u.realName.None? || u.realName.value == "") && u.email.None? ==> s == "Без имени"
  {
    if u.realName.Some? && u.realName.value != "" then u.realName.value
    else u.email.GetOr("Без имени")
  }

  /**
   * The options of `build_assignee_select`: one per member, in order, valued by
   * `u["id"]`; `None` is the `KeyError` of a member without an id.
   */
  function AssigneeChoices(users: seq<Member>): (r: Option<seq<Choice>>)
    ensures r.Some? <==> forall i :: 0 <= i < |users| ==> users[i].id.Some?
    ensures r.Some? ==> |r.value| == |users|
    ensures r.Some? ==> forall i :: 0 <= i < |users| ==> r.value[i] == Choice(MemberLabel(users[i]), users[i].id.value)
  {
    if users == [] then Some([])
    else
      var rest := AssigneeChoices(users[1..]);
      if users[0].id.None? || rest.None? then None
      else Some([Choice(MemberLabel(users[0]), users[0].id.value)] + rest.value)
  }
}
