/** The three collaborators the template executor is built with, reduced to
    what the executor sees of them: the engine (`find`, `render`, `fire`) and
    the command dispatcher (`run`, `filter`). Their behaviour is a parameter
    (a function fixed at construction); what they are asked to do is kept in
    a log that only ever grows, so that "called once, with these arguments,
    in this order" can be stated. The section store is a plain map and lives
    in the Template module. */
module Collaborators {
  import opened Values

  /** The lifecycle events the executor fires, payload first, executor last
      (the executor itself is the `source` of the notification). */
  datatype Event =
    | PreRender                                // f.template.prerender
    | Layout(path: Path)                       // f.template.layout
    | RenderLayout(path: Path)                 // f.template.renderlayout
    | Rendered                                 // f.template.rendered
    | PrePartial(name: Name, context: Data)    // f.template.prepartial
    | AfterPartial                             // f.template.afterpartial

  /** One request made of the engine. */
  datatype EngineCall =
    | FindCall(name: Name)
    | FireCall(event: Event, source: object)
    | RenderCall(name: Name, context: Data)

  /** One request made of the command dispatcher. */
  datatype CommandCall =
    | RunCall(name: Name, args: seq<Value>)
    | FilterCall(name: Name, value: Value, args: seq<Value>)

  /** A filter stage's answer: `None` is PHP `null`, the stage declines. */
  type FilterFn = (Name, Value, seq<Value>) -> Option<Value>

  class Engine {
    /** Logical name to absolute path; `None` is the `false` sentinel. */
    const find: Name -> Option<Path>
    /** Full render of a named partial under a context. */
    const render: (Name, Data) -> string
    /** Every request made of this engine, oldest first. */
    var log: seq<EngineCall>

    constructor (find: Name -> Option<Path>, render: (Name, Data) -> string)
      ensures this.find == find && this.render == render && log == []
    {
      this.find := find;
      this.render := render;
      log := [];
    }

    method Find(name: Name) returns (p: Option<Path>)
      modifies this
      ensures p == find(name)
      ensures log == old(log) + [FindCall(name)]
    {
      p := find(name);
      log := log + [FindCall(name)];
    }

    method Render(name: Name, context: Data) returns (out: string)
      modifies this
      ensures out == render(name, context)
      ensures log == old(log) + [RenderCall(name, context)]
    {
      out := render(name, context);
      log := log + [RenderCall(name, context)];
    }

    method Fire(event: Event, source: object)
      modifies this
      ensures log == old(log) + [FireCall(event, source)]
    {
      log := log + [FireCall(event, source)];
    }
  }

  class Dispatcher {
    /** What the named helper returns for these arguments. */
    const run: (Name, seq<Value>) -> Value
    /** What the named filter returns for this value and arguments. */
    const filter: FilterFn
    /** Every request made of this dispatcher, oldest first. */
    var calls: seq<CommandCall>

    constructor (run: (Name, seq<Value>) -> Value, filter: FilterFn)
      ensures this.run == run && this.filter == filter && calls == []
    {
      this.run := run;
      this.filter := filter;
      calls := [];
    }

    method Run(name: Name, args: seq<Value>) returns (r: Value)
      modifies this
      ensures r == run(name, args)
      ensures calls == old(calls) + [RunCall(name, args)]
    {
      r := run(name, args);
      calls := calls + [RunCall(name, args)];
    }

    method Filter(name: Name, value: Value, args: seq<Value>) returns (r: Option<Value>)
      modifies this
      ensures r == filter(name, value, args)
      ensures calls == old(calls) + [FilterCall(name, value, args)]
    {
      r := filter(name, value, args);
      calls := calls + [FilterCall(name, value, args)];
    }
  }
}
