/** The life of MCP clients under concurrent reconfiguration (mcp/manager.go). */
module McpManager {
  import opened Types

  /** `config` stands for every transport and process setting; `enabled` is compared separately. */
  datatype Server = Server(id: string, config: string, enabled: bool)

  class Client {
    var closed: bool

    constructor ()
      ensures !closed
    {
      closed := false;
    }
  }

  class ServerState {
    var server: Server
    var client: Client?
    var tools: seq<string>
    var failed: bool
    /** The client the cached tools came from. */
    ghost var source: Client?

    constructor (server: Server)
      ensures this.server == server && client == null && tools == [] && !failed
    {
      this.server, client, tools, failed, source := server, null, [], false, null;
    }
  }

  /** The configuration an id ends up with. */
  function LastOf(servers: seq<Server>, id: string): Option<Server> {
    if servers == [] then None
    else if servers[|servers| - 1].id == id then Some(servers[|servers| - 1])
    else LastOf(servers[..|servers| - 1], id)
  }

  /** Each method is one critical section of the manager, or the close that follows one. `created` holds
      every client ever made, `holder` the server each held client belongs to, `retired` the clients
      handed to closing and not closed yet. Any interleaving of the methods is a run of the manager. */
  class Manager {
    var states: map<string, ServerState>
    var closed: bool
    ghost var cells: set<ServerState>
    ghost var created: set<Client>
    ghost var holder: map<Client, string>
    ghost var retired: set<Client>

    ghost predicate Holds(id: string)
      reads this, cells
    {
      id in states && states[id] in cells && states[id].client != null
    }

    /** A registered server: a disabled one holds no client, and cached tools come from the held client. */
    ghost predicate CellOk(id: string, st: ServerState)
      reads this, st
    {
      && st.server.id == id
      && (st.client != null ==> st.server.enabled && st.client in holder && holder[st.client] == id)
      && (!closed && st.tools != [] ==> st.client != null && st.source == st.client)
      && (closed ==> st.client == null)
    }

    ghost predicate Valid()
      reads this, cells, created
    {
      && (forall id :: id in states ==> states[id] in cells && CellOk(id, states[id]))
      && (forall id, id' :: id in states && id' in states && id != id' ==> states[id] != states[id'])
      && (forall c :: c in holder ==> holder[c] in states && states[holder[c]].client == c)
      && holder.Keys <= created && retired <= created && holder.Keys !! retired
      && (forall c :: c in created ==> (c.closed <==> c !in holder && c !in retired))
    }

    /** The clients made and not closed. */
    ghost function Owned(): set<Client>
      reads this
    {
      holder.Keys + retired
    }

    constructor ()
      ensures Valid() && states == map[] && !closed && created == {}
    {
      states, closed, cells, created, holder, retired := map[], false, {}, {}, map[], {};
    }

    /** An entry of Apply for a server not known yet. */
    method Add(sv: Server)
      requires Valid() && !closed && sv.id !in states
      modifies this`states, this`cells
      ensures Valid() && fresh(cells - old(cells)) && old(cells) <= cells
      ensures states.Keys == old(states.Keys) + {sv.id} && fresh(states[sv.id]) && states[sv.id].server == sv
      ensures forall id :: id in old(states) ==> states[id] == old(states[id])
    {
      var st := new ServerState(sv);
      states, cells := states[sv.id := st], cells + {st};
    }

    /** An entry of Apply for a known server: it gives up its client when its settings change or it is
        disabled, and keeps it otherwise. */
    method Reconfigure(sv: Server)
      requires Valid() && !closed && sv.id in states
      modifies this`holder, this`retired, states[sv.id]
      ensures Valid() && states[sv.id].server == sv
      ensures states[sv.id].client ==
                if old(states[sv.id].server.config) == sv.config && sv.enabled then old(states[sv.id].client) else null
      ensures if old(states[sv.id].server.config) != sv.config
                 || (old(states[sv.id].client) != null && states[sv.id].client == null)
              then states[sv.id].tools == [] && !states[sv.id].failed
              else states[sv.id].tools == old(states[sv.id].tools) && states[sv.id].failed == old(states[sv.id].failed)
      ensures old(states[sv.id].client) == null || states[sv.id].client != null ==>
                retired == old(retired) && holder == old(holder)
      ensures old(states[sv.id].client) != null && states[sv.id].client == null ==>
                && retired == old(retired) + {old(states[sv.id].client)}
                && holder == old(holder) - {old(states[sv.id].client)}
    {
      var st := states[sv.id];
      if st.server.config != sv.config || (st.server.enabled && !sv.enabled && st.client != null) {
        if st.client != null {
          retired, holder := retired + {st.client}, holder - {st.client};
        }
        st.client, st.tools, st.failed := null, [], false;
      }
      st.server := sv;
    }

    /** The removal of one server that the new configuration does not list. */
    method Drop(id: string)
      requires Valid() && !closed && id in states
      modifies this`states, this`holder, this`retired
      ensures Valid() && states == old(states) - {id}
      ensures retired >= old(retired) && Owned() == old(Owned())
      ensures old(Holds(id)) ==> old(states[id].client) in retired
    {
      var st := states[id];
      if st.client != null {
        retired, holder := retired + {st.client}, holder - {st.client};
      }
      assert forall c :: c in holder ==> holder[c] != id;
      states := states - {id};
    }

    predicate Listed(servers: seq<Server>, id: string) { LastOf(servers, id).Some? }

    /** The configurations listed so far are in place. */
    ghost predicate Configured(servers: seq<Server>)
      reads this, states.Values
    {
      forall id :: Listed(servers, id) ==> id in states && Some(states[id].server) == LastOf(servers, id)
    }

    method ApplyOne(sv: Server)
      requires Valid() && !closed
      modifies this`states, this`cells, this`holder, this`retired, cells
      ensures Valid() && fresh(cells - old(cells)) && old(cells) <= cells
      ensures sv.id in states && states[sv.id].server == sv
      ensures forall id :: id in old(states) && id != sv.id ==>
                id in states && states[id].server == old(states[id].server)
      ensures retired >= old(retired) && Owned() == old(Owned())
    {
      if sv.id in states { Reconfigure(sv); } else { Add(sv); }
    }

    method Configure(servers: seq<Server>)
      requires Valid() && !closed
      modifies this`states, this`cells, this`holder, this`retired, cells
      ensures Valid() && fresh(cells - old(cells)) && old(cells) <= cells && Configured(servers)
      ensures retired >= old(retired) && Owned() == old(Owned())
    {
      for i := 0 to |servers|
        invariant Valid() && fresh(cells - old(cells)) && old(cells) <= cells && Configured(servers[..i])
        invariant retired >= old(retired) && Owned() == old(Owned())
      {
        assert servers[..i + 1][..i] == servers[..i];
        ApplyOne(servers[i]);
      }
      assert servers[..|servers|] == servers;
    }

    method Review(servers: seq<Server>, id: string)
      requires Valid() && !closed && Configured(servers) && id in states
      modifies this`states, this`holder, this`retired
      ensures Valid() && Configured(servers)
      ensures states.Keys == old(states.Keys) - if Listed(servers, id) then {} else {id}
      ensures retired >= old(retired) && Owned() == old(Owned())
    {
      if !Listed(servers, id) { Drop(id); }
    }

    method DropUnlisted(servers: seq<Server>)
      requires Valid() && !closed && Configured(servers)
      modifies this`states, this`holder, this`retired
      ensures Valid() && Configured(servers)
      ensures forall id :: id in states ==> Listed(servers, id)
      ensures retired >= old(retired) && Owned() == old(Owned())
    {
      var todo := states.Keys;
      while todo != {}
        invariant Valid() && Configured(servers) && todo <= states.Keys
        invariant retired >= old(retired) && Owned() == old(Owned())
        invariant forall id :: id in states && id !in todo ==> Listed(servers, id)
        decreases todo
      {
        var id :| id in todo;
        todo := todo - {id};
        Review(servers, id);
      }
    }

    /** Apply under its lock: afterwards exactly the listed servers are there, each with its last listed
        configuration, and every client is still held or handed to closing. */
    method Apply(servers: seq<Server>)
      requires Valid()
      modifies this`states, this`cells, this`holder, this`retired, cells
      ensures Valid() && fresh(cells - old(cells))
      ensures closed ==> states == old(states) && holder == old(holder) && retired == old(retired)
      ensures !closed ==> Configured(servers) && forall id :: id in states ==> Listed(servers, id)
      ensures retired >= old(retired) && Owned() == old(Owned())
    {
      if closed { return; }
      Configure(servers);
      DropUnlisted(servers);
    }

    /** The first section of RefreshOne; `connects` says whether a client could be made. */
    method BeginRefresh(id: string, connects: bool) returns (st: ServerState?, client: Client?)
      requires Valid()
      modifies this`created, this`holder, cells
      ensures Valid() && retired == old(retired)
      ensures closed || id !in states || !states[id].server.enabled ==>
                st == null && created == old(created) && holder == old(holder)
      ensures created != old(created) ==>
                client != null && fresh(client) && created == old(created) + {client} && old(!Holds(id))
      ensures st != null <==> !closed && id in states && states[id].server.enabled && (old(Holds(id)) || connects)
      ensures st != null ==> st == states[id] && client != null && st.client == client
      ensures old(Holds(id)) ==> states[id].client == old(states[id].client)
      ensures !closed && id in states && states[id].server.enabled && !old(Holds(id)) && !connects ==> states[id].failed
    {
      if closed || id !in states || !states[id].server.enabled { return null, null; }
      st := states[id];
      if st.client == null {
        if !connects {
          st.failed := true;
          return null, null;
        }
        client := new Client();
        st.client := client;
        created, holder := created + {client}, holder[client := id];
      }
      client := st.client;
    }

    /** The second section of RefreshOne, with what `client` answered meanwhile. Whatever happened between
        the sections, the answer is stored only if the very client is still the held one. */
    method EndRefresh(id: string, st: ServerState, client: Client, tools: seq<string>, failed: bool)
      requires Valid()
      modifies cells
      ensures Valid()
      ensures var current := id in states && states[id] == st && st.client == client && st.server.enabled;
              if current then st.tools == tools && st.failed == failed && st.source == client
              else forall c :: c in cells ==> c.tools == old(c.tools) && c.source == old(c.source)
      ensures forall c :: c in cells ==> c.client == old(c.client) && c.server == old(c.server)
    {
      if id in states && states[id] == st && states[id].client == client && states[id].server.enabled {
        st.tools, st.failed, st.source := tools, failed, client;
      }
    }

    /** The locked part of CallTool. A listed tool implies a held client, so its branch that makes one is dead. */
    method BeginCall(id: string, tool: string) returns (client: Client?)
      requires Valid()
      ensures client != null <==> !closed && id in states && states[id].server.enabled && tool in states[id].tools
      ensures client != null ==> client in holder && holder[client] == id && states[id].source == client
    {
      if closed || id !in states || !states[id].server.enabled || tool !in states[id].tools { return null; }
      client := states[id].client;
    }

    /** Close under its lock: every held client is handed to closing. */
    method Close()
      requires Valid()
      modifies this`closed, this`holder, this`retired, cells
      ensures Valid() && closed && holder == map[] && created == old(created)
      ensures retired == old(retired) + old(holder.Keys)
    {
      var todo := states.Keys;
      while todo != {}
        invariant todo <= states.Keys
        invariant forall id :: id in states && id !in todo ==> states[id].client == null
        invariant forall id :: id in todo ==> states[id].client == old(states[id].client)
        invariant forall id :: id in states ==> states[id].server == old(states[id].server)
        modifies cells
        decreases todo
      {
        var id :| id in todo;
        states[id].client := null;
        todo := todo - {id};
      }
      retired, holder, closed := retired + holder.Keys, map[], true;
    }

    /** The close of one retired client: it happens once. */
    method CloseRetired(c: Client)
      requires Valid() && c in retired
      modifies this`retired, c`closed
      ensures Valid() && c.closed && !old(c.closed) && retired == old(retired) - {c}
    {
      c.closed := true;
      retired := retired - {c};
    }
  }
}
