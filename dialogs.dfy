/**
 * The dialog store: the wizard's per-dialog records keyed by
 * `(user_id, root_post_id)` (`STATE` with `set_state`, `get_state` and
 * `clear_state`). A record is a dictionary from field names to values; an
 * absent key and a key holding `None` are told apart, as in Python.
 */
module Dialogs {
  import opened Wrappers
  import opened Calendar

  /** The keys a dialog record can hold. */
  datatype Field =
    | Step | ChannelId | TaskTitle | AskTitlePostId | PostIds | RootPostId
    | ProjectOptions | ProjectId | ProjectTitle
    | BoardOptions | BoardId | BoardTitle
    | ColumnOptions | ColumnId
    | AssigneeId | AssigneeName
    | DeadlineChoice | Deadline | DeadlineDisplay | DeadlineStr
    | TaskId | TaskUrl
    | CreatedAt | UpdatedAt

  /** The values stored under them: `None`, strings, id lists, id-to-title dictionaries, dates and `time.time()` stamps. */
  datatype Value =
    | Null
    | Str(s: string)
    | Ids(ids: seq<string>)
    | Titles(titles: map<string, string>)
    | Day(date: CivilDate)
    | Time(t: real)

  type Dialog = map<Field, Value>

  /** A dialog is owned by a user and hangs off a root post; an id that is `None` is written "". */
  type Key = (string, string)

  // ---------------------------------------------------------------------------
  // Python truthiness and `dict.get`
  // ---------------------------------------------------------------------------

  predicate Truthy(v: Value) {
    match v
    case Null => false
    case Str(s) => s != ""
    case Ids(ids) => ids != []
    case Titles(m) => m != map[]
    case Day(_) => true
    case Time(t) => t != 0.0
  }

  /** A string value as an f-string shows it; `None` prints as "None". */
  function Render(v: Value): string {
    match v
    case Str(s) => s
    case Null => "None"
    case _ => ""
  }

  /** `str(d.get(f, default))` for a text field. */
  function GetText(d: Dialog, f: Field, default: string): (r: string)
    ensures f !in d ==> r == default
    ensures f in d && d[f].Str? ==> r == d[f].s
  {
    if f in d then Render(d[f]) else default
  }

  /** `d.get(f)` for a text field: `None` unless a string is stored. */
  function GetStr(d: Dialog, f: Field): (r: Option<string>)
    ensures r.Some? <==> f in d && d[f].Str?
  {
    if f in d && d[f].Str? then Some(d[f].s) else None
  }

  /** `d.get(f)` when only its truthiness and its string matter: a non-empty string or nothing. */
  function GetTruthy(d: Dialog, f: Field): (r: Option<string>)
    ensures r.Some? ==> r.value != "" && f in d && d[f] == Str(r.value)
    ensures f in d && d[f].Str? && d[f].s != "" ==> r == Some(d[f].s)
  {
    if f in d && d[f].Str? && d[f].s != "" then Some(d[f].s) else None
  }

  /** `d.get("post_ids", [])`: the ids of the dialog's service posts. */
  function PostIdsOf(d: Dialog): (ids: seq<string>)
    ensures PostIds in d && d[PostIds].Ids? ==> ids == d[PostIds].ids
    ensures PostIds !in d ==> ids == []
  {
    if PostIds in d && d[PostIds].Ids? then d[PostIds].ids else []
  }

  /** `d.get(f, {}).get(id, default)`: the title an option dictionary gives an id. */
  function TitleIn(d: Dialog, f: Field, id: string, default: string): (r: string)
    ensures f in d && d[f].Titles? && id in d[f].titles ==> r == d[f].titles[id]
    ensures (f !in d || (d[f].Titles? && id !in d[f].titles)) ==> r == default
  {
    if f in d && d[f].Titles? && id in d[f].titles then d[f].titles[id] else default
  }

  /** `d.get("step") == name`. */
  predicate AtStep(d: Dialog, name: string) {
    Step in d && d[Step] == Str(name)
  }

  // ---------------------------------------------------------------------------
  // set_state
  // ---------------------------------------------------------------------------

  /**
   * The record `set_state` leaves behind: `created_at` is stamped with `now`
   * only when the record has none, then `data` is merged over it, then
   * `updated_at` is stamped with `now`.
   */
  function Merge(prev: Dialog, data: Dialog, now: real): (d: Dialog)
    ensures UpdatedAt in d && d[UpdatedAt] == Time(now)
    ensures CreatedAt in d
  {
    var stamped := if CreatedAt in prev then prev else prev[CreatedAt := Time(now)];
    (stamped + data)[UpdatedAt := Time(now)]
  }

  /** What `Merge` does to one field `f`. */
  lemma MergeAt(prev: Dialog, data: Dialog, now: real, f: Field)
    ensures f in Merge(prev, data, now) <==> f in prev || f in data || f == CreatedAt || f == UpdatedAt
    ensures f in Merge(prev, data, now) ==>
      Merge(prev, data, now)[f] ==
        if f == UpdatedAt then Time(now)
        else if f in data then data[f]
        else if f in prev then prev[f]
        else Time(now)
  {
  }

  /**
   * `set_state` keeps an existing `created_at` and otherwise stamps it with
   * `now`, merges every given field, stamps `updated_at` with `now`, and keeps
   * every other field as it was.
   */
  lemma MergeSpec(prev: Dialog, data: Dialog, now: real)
    requires CreatedAt !in data && UpdatedAt !in data
    ensures var d := Merge(prev, data, now);
      && d.Keys == prev.Keys + data.Keys + {CreatedAt, UpdatedAt}
      && d[CreatedAt] == (if CreatedAt in prev then prev[CreatedAt] else Time(now))
      && d[UpdatedAt] == Time(now)
      && (forall f :: f in data ==> d[f] == data[f])
      && (forall f :: f in prev && f !in data && f != UpdatedAt ==> d[f] == prev[f])
  {
    var d := Merge(prev, data, now);
    forall f
      ensures f in d <==> f in prev || f in data || f == CreatedAt || f == UpdatedAt
      ensures f in d ==> d[f] == if f == UpdatedAt then Time(now) else if f in data then data[f] else if f in prev then prev[f] else Time(now)
    {
      MergeAt(prev, data, now, f);
    }
  }

  /** A field `set_state` is not given reads the same afterwards. */
  lemma MergeGetStr(prev: Dialog, data: Dialog, now: real, f: Field)
    requires f !in data && f != CreatedAt && f != UpdatedAt
    ensures GetStr(Merge(prev, data, now), f) == GetStr(prev, f)
  {
    MergeAt(prev, data, now, f);
  }

  /** `set_state` of one field on a record never stamped: both stamps are `now`. */
  lemma MergeFresh(prev: Dialog, f: Field, v: Value, now: real)
    requires CreatedAt !in prev && f != CreatedAt && f != UpdatedAt
    ensures Merge(prev, map[f := v], now) == prev[CreatedAt := Time(now)][f := v][UpdatedAt := Time(now)]
  {
    var d := Merge(prev, map[f := v], now);
    var e := prev[CreatedAt := Time(now)][f := v][UpdatedAt := Time(now)];
    assert d.Keys == e.Keys;
    forall g | g in d.Keys
      ensures d[g] == e[g]
    {
      MergeAt(prev, map[f := v], now, g);
    }
  }

  /** `set_state(key, {})` only refreshes `updated_at` of a stamped record. */
  lemma MergeNothing(prev: Dialog, now: real)
    requires CreatedAt in prev
    ensures Merge(prev, map[], now) == prev[UpdatedAt := Time(now)]
  {
    var d := Merge(prev, map[], now);
    assert d.Keys == prev[UpdatedAt := Time(now)].Keys;
  }

  /** Merging the same data again later changes nothing but `updated_at`. */
  lemma MergeTwice(prev: Dialog, data: Dialog, t1: real, t2: real)
    requires CreatedAt !in data && UpdatedAt !in data
    ensures Merge(Merge(prev, data, t1), data, t2) == Merge(prev, data, t1)[UpdatedAt := Time(t2)]
  {
    var once := Merge(prev, data, t1);
    var twice := Merge(once, data, t2);
    assert twice.Keys == once.Keys;
    forall f | f in twice.Keys
      ensures twice[f] == once[UpdatedAt := Time(t2)][f]
    {
    }
  }

  /** The creation stamp is set once: later merges keep it. */
  lemma MergeKeepsCreatedAt(prev: Dialog, data: Dialog, t1: real, t2: real)
    requires CreatedAt !in data
    ensures Merge(Merge(prev, map[], t1), data, t2)[CreatedAt] == Merge(prev, map[], t1)[CreatedAt]
  {
  }

  /**
   * The dialog store. `get_state` is `Get`, `set_state` is `SetState` and
   * `clear_state` is `ClearState`; `Replace` is the direct assignment
   * `STATE[key] = {...}` that `start_task_creation` performs.
   */
  class DialogStore {
    var dialogs: map<Key, Dialog>

    constructor()
      ensures dialogs == map[]
    {
      dialogs := map[];
    }

    /** `get_state(key)`: the record, or `None`. */
    function Get(key: Key): (r: Option<Dialog>)
      reads this
      ensures r.Some? <==> key in dialogs
      ensures r.Some? ==> r.value == dialogs[key]
    {
      if key in dialogs then Some(dialogs[key]) else None
    }

    /** The record `set_state` starts from: the stored one or, through the `defaultdict`, an empty one. */
    function Current(key: Key): Dialog
      reads this
    {
      if key in dialogs then dialogs[key] else map[]
    }

    /** `set_state(key, data)` at time `now`; returns the record, as the source does. */
    method SetState(key: Key, data: Dialog, now: real) returns (d: Dialog)
      modifies this
      ensures d == Merge(old(Current(key)), data, now)
      ensures dialogs == old(dialogs)[key := d]
    {
      d := Merge(Current(key), data, now);
      dialogs := dialogs[key := d];
    }

    /** `clear_state(key)`: drops the record if there is one. */
    method ClearState(key: Key)
      modifies this
      ensures dialogs == old(dialogs) - {key}
      ensures Get(key) == None
    {
      dialogs := dialogs - {key};
    }

    /** `STATE[key] = d`: the record replaced outright, timestamps included. */
    method Replace(key: Key, d: Dialog)
      modifies this
      ensures dialogs == old(dialogs)[key := d]
    {
      dialogs := dialogs[key := d];
    }
  }
}
