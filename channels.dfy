/**
 * The channel-to-default-project map (`CHANNEL_PROJECT_MAP` with
 * `get_default_project_for_channel`, `set_default_project_for_channel` and
 * `delete_default_project_for_channel`), kept in memory.
 */
module Channels {
  import opened Wrappers

  datatype DefaultProject = DefaultProject(projectId: string, projectTitle: string)

  /** `project_title or "без названия"`. */
  function DefaultTitle(title: string): (r: string)
    ensures r != ""
    ensures title != "" ==> r == title
    ensures title == "" ==> r == "без названия"
  {
    if title != "" then title else "без названия"
  }

  class ChannelDefaults {
    var entries: map<string, DefaultProject>

    constructor()
      ensures entries == map[]
    {
      entries := map[];
    }

    /** `get_default_project_for_channel(channel_id)`: the entry, or `None`. */
    function Get(channelId: string): (r: Option<DefaultProject>)
      reads this
      ensures r.Some? <==> channelId in entries
      ensures r.Some? ==> r.value == entries[channelId]
    {
      if channelId in entries then Some(entries[channelId]) else None
    }

    /** Every stored entry carries a title. */
    ghost predicate Valid()
      reads this
    {
      forall c :: c in entries ==> entries[c].projectTitle != ""
    }

    /**
     * `set_default_project_for_channel`: the channel's entry is replaced, with
     * an empty title stored as "без названия"; other channels keep theirs.
     */
    method Set(channelId: string, projectId: string, projectTitle: string)
      modifies this
      requires Valid()
      ensures Valid()
      ensures entries == old(entries)[channelId := DefaultProject(projectId, DefaultTitle(projectTitle))]
      ensures Get(channelId) == Some(DefaultProject(projectId, DefaultTitle(projectTitle)))
    {
      entries := entries[channelId := DefaultProject(projectId, DefaultTitle(projectTitle))];
    }

    /**
     * `delete_default_project_for_channel`: removes the entry when there is one;
     * `saved` says whether the map was written back, which happens only then.
     */
    method Delete(channelId: string) returns (saved: bool)
      modifies this
      requires Valid()
      ensures Valid()
      ensures entries == old(entries) - {channelId}
      ensures saved <==> channelId in old(entries)
      ensures Get(channelId) == None
    {
      saved := channelId in entries;
      if saved {
        entries := entries - {channelId};
      }
    }
  }
}
