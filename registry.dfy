/**
 * The tool registry: a table from tool names to tools.  Every handle to a
 * registry refers to one shared table, so a registration made through one
 * handle is seen through all of them.
 */
module Registry {
  import opened Wrappers
  import Model

  /** The shared table behind every handle. */
  class ToolTable {
    var tools: map<string, Model.Tool>

    constructor()
      ensures tools == map[]
    {
      tools := map[];
    }
  }

  /** A handle to a tool table; cloning a handle shares the table. */
  class ToolRegistry {
    const table: ToolTable

    /** `ToolRegistry::new`: a handle to a fresh, empty table. */
    constructor()
      ensures fresh(table) && table.tools == map[]
    {
      table := new ToolTable();
    }

    /** `clone`: a new handle to the same table. */
    constructor Share(other: ToolRegistry)
      ensures table == other.table
    {
      table := other.table;
    }

    /**
     * `register`: stores the tool under its own name, replacing any tool
     * registered under that name before; every other entry is kept.
     */
    method Register(tool: Model.Tool)
      modifies table
      ensures table.tools == old(table.tools)[tool.name := tool]
    {
      table.tools := table.tools[tool.name := tool];
    }

    /** `get`: the tool registered under `name`, if any. */
    method Get(name: string) returns (r: Option<Model.Tool>)
      ensures r.Some? <==> name in table.tools
      ensures r.Some? ==> r.value == table.tools[name]
    {
      if name in table.tools {
        r := Some(table.tools[name]);
      } else {
        r := None;
      }
    }
  }

  /** Every tool is stored under its own name. */
  predicate TableKeyed(tools: map<string, Model.Tool>)
  {
    forall n :: n in tools ==> tools[n].name == n
  }

  /** Registering keeps every tool stored under its own name. */
  lemma RegisterKeepsKeyed(tools: map<string, Model.Tool>, tool: Model.Tool)
    requires TableKeyed(tools)
    ensures TableKeyed(tools[tool.name := tool])
  {
  }

  /**
   * A scenario over two handles: a tool registered through a clone is
   * found through the original, under its name, and names registered
   * before are still found.
   */
  method RegisterThroughClone(registry: ToolRegistry, tool: Model.Tool, earlier: string)
    returns (seen: Option<Model.Tool>, kept: bool)
    modifies registry.table
    requires earlier in registry.table.tools
    ensures seen == Some(tool)
    ensures kept
  {
    var cloned := new ToolRegistry.Share(registry);
    cloned.Register(tool);
    seen := registry.Get(tool.name);
    var old_entry := registry.Get(earlier);
    kept := old_entry.Some?;
  }

  /** A name never registered is not found. */
  method GetMissing(registry: ToolRegistry, name: string) returns (r: Option<Model.Tool>)
    requires name !in registry.table.tools
    ensures r == None
  {
    r := registry.Get(name);
  }
}
