/**
 * The recipient registry: the module-level `serverConfigs` (guild id to
 * channel and optional ping role) and `dmUserConfigs` (user id to an
 * enabled flag), changed by `/setup`, `resetServerConfig` and `loadConfig`.
 * Writing the file is modelled as an abstract event: every `saveConfig`
 * appends the document it would write to `saved`.
 */
module Registry {
  import opened Common

  /** A guild's delivery settings: the channel to post in and the role to mention. */
  datatype ServerConfig = ServerConfig(channelId: string, pingRoleId: Option<string>)

  /** A direct-message subscriber's settings. */
  datatype DmConfig = DmConfig(enabled: bool)

  /**
   * The parsed configuration document: its `servers` and `dmUsers` sections,
   * each `None` when missing (or otherwise falsy) in the file.
   */
  datatype ConfigFile = ConfigFile(servers: Option<map<string, ServerConfig>>, dmUsers: Option<map<string, DmConfig>>)

  /** `data.section || {}`: a missing section reads as an empty mapping. */
  function SectionOrEmpty<V>(section: Option<map<string, V>>): (m: map<string, V>)
    ensures section.Some? ==> m == section.value
    ensures section.None? ==> m == map[]
  {
    match section
    case None => map[]
    case Some(v) => v
  }

  /** The document `saveConfig` writes for the given state. */
  function Document(servers: map<string, ServerConfig>, dmUsers: map<string, DmConfig>): (doc: ConfigFile)
  {
    ConfigFile(Some(servers), Some(dmUsers))
  }

  class Registry {
    var servers: map<string, ServerConfig>
    var dmUsers: map<string, DmConfig>
    /** Every document written by `saveConfig`, oldest first. */
    var saved: seq<ConfigFile>

    /** Both registries start empty and nothing has been written. */
    constructor ()
      ensures servers == map[] && dmUsers == map[] && saved == []
    {
      servers := map[];
      dmUsers := map[];
      saved := [];
    }

    /** `saveConfig`: write both mappings. */
    method Save()
      modifies this`saved
      ensures saved == old(saved) + [Document(servers, dmUsers)]
    {
      saved := saved + [Document(servers, dmUsers)];
    }

    /**
     * `loadConfig`: with no file the state is kept; otherwise each section
     * replaces its mapping, and a missing section empties it.
     */
    method Load(file: Option<ConfigFile>)
      modifies this`servers, this`dmUsers
      ensures file.None? ==> servers == old(servers) && dmUsers == old(dmUsers)
      ensures file.Some? && file.value.servers.Some? ==> servers == file.value.servers.value
      ensures file.Some? && file.value.servers.None? ==> servers == map[]
      ensures file.Some? && file.value.dmUsers.Some? ==> dmUsers == file.value.dmUsers.value
      ensures file.Some? && file.value.dmUsers.None? ==> dmUsers == map[]
    {
      if file.Some? {
        servers := SectionOrEmpty(file.value.servers);
        dmUsers := SectionOrEmpty(file.value.dmUsers);
      }
    }

    /**
     * `/setup` in a guild: insert or overwrite the guild's entry, leave every
     * other entry alone, and save.
     */
    method SetupServer(guildId: string, channelId: string, pingRoleId: Option<string>)
      modifies this
      ensures servers == old(servers)[guildId := ServerConfig(channelId, pingRoleId)]
      ensures guildId in servers && servers[guildId] == ServerConfig(channelId, pingRoleId)
      ensures forall g :: g != guildId ==> (g in servers <==> g in old(servers))
      ensures forall g :: g != guildId && g in servers ==> servers[g] == old(servers)[g]
      ensures dmUsers == old(dmUsers)
      ensures saved == old(saved) + [Document(servers, dmUsers)]
    {
      servers := servers[guildId := ServerConfig(channelId, pingRoleId)];
      Save();
    }

    /** `/setup` in a direct message: enable the user and save. */
    method SetupDm(userId: string)
      modifies this
      ensures dmUsers == old(dmUsers)[userId := DmConfig(true)]
      ensures forall u :: u != userId ==> (u in dmUsers <==> u in old(dmUsers))
      ensures forall u :: u != userId && u in dmUsers ==> dmUsers[u] == old(dmUsers)[u]
      ensures servers == old(servers)
      ensures saved == old(saved) + [Document(servers, dmUsers)]
    {
      dmUsers := dmUsers[userId := DmConfig(true)];
      Save();
    }

    /**
     * `resetServerConfig`: remove the guild's entry and save; when there is
     * no entry, change nothing and write nothing.
     */
    method ResetServer(guildId: string)
      modifies this
      ensures servers == old(servers) - {guildId}
      ensures guildId !in servers
      ensures forall g :: g != guildId ==> (g in servers <==> g in old(servers))
      ensures forall g :: g != guildId && g in servers ==> servers[g] == old(servers)[g]
      ensures dmUsers == old(dmUsers)
      ensures guildId in old(servers) ==> saved == old(saved) + [Document(servers, dmUsers)]
      ensures guildId !in old(servers) ==> saved == old(saved)
    {
      if guildId in servers {
        servers := servers - {guildId};
        Save();
      }
    }
  }

  /**
   * Saving then loading is a round trip: loading the last document written
   * restores both mappings as they were when it was written.
   */
  method SaveThenLoad(r: Registry)
    modifies r
    ensures r.servers == old(r.servers) && r.dmUsers == old(r.dmUsers)
    ensures |r.saved| == |old(r.saved)| + 1
  {
    r.Save();
    r.Load(Some(r.saved[|r.saved| - 1]));
  }
}
