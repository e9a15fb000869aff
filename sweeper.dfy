/**
 * The cleanup thread (`auto_cleanup_loop` with `auto_finish_dialog`): once a
 * minute, every dialog that has sat in `OPTIONAL_ATTACH` for longer than the
 * timeout is finished on the user's behalf: its summary and a note go to the
 * thread and the record is dropped.
 */
module Sweeper {
  import opened Wrappers
  import opened Dialogs
  import opened Machine

  /** `st.get("updated_at") or st.get("created_at")`, when it is a (non-zero) time stamp. */
  function LastTouched(d: Dialog): (r: Option<real>)
    ensures r.Some? ==> r.value != 0.0
    ensures UpdatedAt in d && d[UpdatedAt].Time? && d[UpdatedAt].t != 0.0 ==> r == Some(d[UpdatedAt].t)
    ensures (UpdatedAt !in d || !Truthy(d[UpdatedAt])) && CreatedAt in d && d[CreatedAt].Time? ==>
      r == if d[CreatedAt].t != 0.0 then Some(d[CreatedAt].t) else None
  {
    var v := if UpdatedAt in d && Truthy(d[UpdatedAt]) then d[UpdatedAt]
             else if CreatedAt in d then d[CreatedAt] else Null;
    if v.Time? && v.t != 0.0 then Some(v.t) else None
  }

  /** A dialog the sweep finishes at time `now`: waiting for attachments, idle for more than the timeout. */
  predicate Due(d: Dialog, now: real, timeoutMinutes: int) {
    AtStep(d, OptionalAttachStep) && LastTouched(d).Some? &&
    now - LastTouched(d).value > (timeoutMinutes * 60) as real
  }

  /**
   * `auto_finish_dialog(user, root)`: a missing or empty record, or one with no
   * channel, is left alone; otherwise the summary and the auto-finish note go
   * to the thread and the record is dropped.
   */
  function AutoFinish(w: World, key: Key): World {
    var st := Cur(w, key);
    var channel := GetTruthy(st, ChannelId);
    if st == map[] || channel.None? then w
    else
      var summary := SummaryOf(st, GetText(st, TaskTitle, Untitled));
      var w1 := Send(w, Post(channel.value, Reply(key), TaskSummary(summary)));
      Clear(Send(w1, Post(channel.value, Reply(key), AutoFinishNote)), key)
  }

  /**
   * One pass of the cleanup loop over the snapshot `items` of the store, in the
   * order `order` in which the snapshot lists its keys.
   */
  function SweepFrom(w: World, items: map<Key, Dialog>, order: seq<Key>, now: real, timeoutMinutes: int): World
    decreases |order|
  {
    if order == [] then w
    else
      var w1 := SweepFrom(w, items, order[..|order| - 1], now, timeoutMinutes);
      var k := order[|order| - 1];
      if k in items && Due(items[k], now, timeoutMinutes) then AutoFinish(w1, k) else w1
  }

  /** One pass of the cleanup loop on `w`. */
  function Sweep(w: World, order: seq<Key>, now: real, timeoutMinutes: int): World {
    SweepFrom(w, w.dialogs, order, now, timeoutMinutes)
  }
}
