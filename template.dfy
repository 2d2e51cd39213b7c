/** The template executor `Foil\Template\Template`: one object per template
    file, holding the data of the current render, the body's last captured
    output and the layout chosen for it, and talking to the engine, the
    command dispatcher and the section store it was built with. */
module Template {
  import opened Values
  import opened Collaborators
  import opened Pipeline

  /** `InvalidArgumentException`, thrown by `layout()` for a name the
      engine cannot resolve. */
  datatype Error = InvalidArgument(name: Name)

  /** What executing one template file yields: the output it echoed and the
      layout name it asked for with `$this->layout(...)`, if any. */
  datatype Run = Run(output: string, layoutRequest: Option<Name>)

  /** Executing a file under a data context, given what `lastBuffer()`
      returns while it runs. This stands for PHP's include plus output
      buffering. */
  type Body = (Path, Data, string) -> Run

  /** The default of `supply`: none given, a plain value, or a callable
      that is given the section key and the template. */
  datatype Default = Omitted | Plain(value: Value) | Callable(fn: (Name, Template) -> Value)

  /** Everything one render pass decides: what it returns (or throws), the
      layout it applied, the buffer and layout it leaves behind, and the
      requests it makes of the engine, in order. */
  datatype Rendering = Rendering(result: Result<string, Error>, applied: Option<Path>, buffer: string,
                                 layout: Option<Path>, log: seq<EngineCall>)

  /** The render state machine of `Template::render`, for the template
      `self` at `path` holding `layout` and `buffer` when the render starts.
      A layout applies to the render pass that uses it only: a successful
      render leaves no layout behind, so rendering again does not wrap the
      output in it a second time. */
  function RenderSpec(self: object, exec: Body, find: Name -> Option<Path>, path: Path,
                      data: Data, layout: Option<Path>, buffer: string): (r: Rendering)
    ensures |r.log| >= 2 && r.log[0] == FireCall(PreRender, self)
    ensures forall i :: 0 <= i < |r.log| ==> !r.log[i].RenderCall?
    ensures r.result.Failure? <==>
      exec(path, data, buffer).layoutRequest.Some? && find(exec(path, data, buffer).layoutRequest.value).None?
    ensures r.result.Failure? ==>
      r.result.error == InvalidArgument(exec(path, data, buffer).layoutRequest.value)
      && r.buffer == buffer && r.layout == layout && r.applied == None
      && r.log == [FireCall(PreRender, self), FindCall(exec(path, data, buffer).layoutRequest.value)]
    ensures r.result.Success? ==>
      r.applied == (if exec(path, data, buffer).layoutRequest.Some?
                    then find(exec(path, data, buffer).layoutRequest.value) else layout)
      && r.layout == None
    ensures r.result.Success? ==>
      r.log[|r.log| - 1] == FireCall(Rendered, self)
      && r.buffer == exec(path, data, buffer).output
      && r.result.value == match r.applied
                           case None => r.buffer
                           case Some(p) => exec(p, data, r.buffer).output
  {
    var body := exec(path, data, buffer);
    var lookup := if body.layoutRequest.Some? then [FindCall(body.layoutRequest.value)] else [];
    var start := [FireCall(PreRender, self)] + lookup;
    if body.layoutRequest.Some? && find(body.layoutRequest.value).None? then
      Rendering(Failure(InvalidArgument(body.layoutRequest.value)), None, buffer, layout, start)
    else
      var chosen := if body.layoutRequest.Some? then find(body.layoutRequest.value) else layout;
      match chosen
      case None =>
        Rendering(Success(body.output), chosen, body.output, None, start + [FireCall(Rendered, self)])
      case Some(p) =>
        Rendering(Success(exec(p, data, body.output).output), chosen, body.output, None,
                  start + [FireCall(Layout(p), self), FireCall(RenderLayout(p), self), FireCall(Rendered, self)])
  }

  /** The events `source` fired, in order. */
  function EventsOf(log: seq<EngineCall>, source: object): seq<Event>
  {
    if log == [] then []
    else (if log[0].FireCall? && log[0].source == source then [log[0].event] else [])
         + EventsOf(log[1..], source)
  }

  lemma {:induction false} EventsOfAppend(a: seq<EngineCall>, b: seq<EngineCall>, source: object)
    ensures EventsOf(a + b, source) == EventsOf(a, source) + EventsOf(b, source)
  {
    if a != [] {
      assert (a + b)[1..] == a[1..] + b;
      EventsOfAppend(a[1..], b, source);
    } else {
      assert a + b == b;
    }
  }

  /** The names the engine was asked to resolve, in order. */
  function Lookups(log: seq<EngineCall>): seq<Name>
  {
    if log == [] then []
    else (if log[0].FindCall? then [log[0].name] else []) + Lookups(log[1..])
  }

  lemma {:induction false} LookupsAppend(a: seq<EngineCall>, b: seq<EngineCall>)
    ensures Lookups(a + b) == Lookups(a) + Lookups(b)
  {
    if a != [] {
      assert (a + b)[1..] == a[1..] + b;
      LookupsAppend(a[1..], b);
    } else {
      assert a + b == b;
    }
  }

  /** A render resolves exactly one name, the layout its body asks for, and
      none when the body asks for no layout; a layout set before the render
      is not looked up again. */
  lemma RenderLookups(self: object, exec: Body, find: Name -> Option<Path>, path: Path,
                      data: Data, layout: Option<Path>, buffer: string)
    ensures var r := RenderSpec(self, exec, find, path, data, layout, buffer);
      var request := exec(path, data, buffer).layoutRequest;
      Lookups(r.log) == if request.Some? then [request.value] else []
  {
    var r := RenderSpec(self, exec, find, path, data, layout, buffer);
    var body := exec(path, data, buffer);
    var lookup := if body.layoutRequest.Some? then [FindCall(body.layoutRequest.value)] else [];
    var start := [FireCall(PreRender, self)] + lookup;
    assert Lookups([FireCall(PreRender, self)]) == [];
    if lookup != [] {
      assert Lookups(lookup) == [body.layoutRequest.value];
    }
    LookupsAppend([FireCall(PreRender, self)], lookup);
    if r.log != start {
      var tail := r.log[|start|..];
      assert r.log == start + tail;
      assert |tail| == 1 || |tail| == 3;
      assert forall i :: 0 <= i < |tail| ==> tail[i].FireCall?;
      NoLookups(tail);
      LookupsAppend(start, tail);
    }
  }

  lemma {:induction false} NoLookups(log: seq<EngineCall>)
    requires forall i :: 0 <= i < |log| ==> log[i].FireCall?
    ensures Lookups(log) == []
  {
    if log != [] {
      NoLookups(log[1..]);
    }
  }

  /** The events a render fires, and their order: prerender first; then, if a
      layout is in force, layout and renderlayout with its path; rendered
      last. A render whose body asks for an unknown layout stops after
      prerender. */
  lemma RenderEvents(self: object, exec: Body, find: Name -> Option<Path>, path: Path,
                     data: Data, layout: Option<Path>, buffer: string)
    ensures var r := RenderSpec(self, exec, find, path, data, layout, buffer);
      EventsOf(r.log, self) ==
        if r.result.Failure? then [PreRender]
        else match r.applied
             case None => [PreRender, Rendered]
             case Some(p) => [PreRender, Layout(p), RenderLayout(p), Rendered]
  {
    var body := exec(path, data, buffer);
    var lookup := if body.layoutRequest.Some? then [FindCall(body.layoutRequest.value)] else [];
    var start := [FireCall(PreRender, self)] + lookup;
    StartEvents(self, lookup);
    if !(body.layoutRequest.Some? && find(body.layoutRequest.value).None?) {
      var chosen := if body.layoutRequest.Some? then find(body.layoutRequest.value) else layout;
      var done := [FireCall(Rendered, self)];
      match chosen
      case None =>
        TailEvents(self, start, []);
        assert start + [] + done == start + done;
      case Some(p) =>
        var around := [FireCall(Layout(p), self), FireCall(RenderLayout(p), self)];
        TailEvents(self, start, around);
        assert start + around + done
          == start + [FireCall(Layout(p), self), FireCall(RenderLayout(p), self), FireCall(Rendered, self)];
    }
  }

  /** A render's opening requests: prerender, then possibly a lookup. */
  lemma StartEvents(self: object, lookup: seq<EngineCall>)
    requires lookup == [] || (|lookup| == 1 && lookup[0].FindCall?)
    ensures EventsOf([FireCall(PreRender, self)] + lookup, self) == [PreRender]
  {
    assert ([FireCall(PreRender, self)] + lookup)[1..] == lookup;
    if lookup != [] {
      assert lookup[1..] == [];
    }
  }

  /** The events of a render's requests after its opening ones. */
  lemma TailEvents(self: object, start: seq<EngineCall>, around: seq<EngineCall>)
    requires EventsOf(start, self) == [PreRender]
    requires around == [] || (|around| == 2 && around[0].FireCall? && around[0].source == self
                              && around[1].FireCall? && around[1].source == self)
    ensures EventsOf(start + around + [FireCall(Rendered, self)], self)
      == [PreRender] + (if around == [] then [] else [around[0].event, around[1].event]) + [Rendered]
  {
    var done := [FireCall(Rendered, self)];
    assert EventsOf(done, self) == [Rendered];
    if around != [] {
      assert EventsOf(around[1..], self) == [around[1].event];
    } else {
      assert start + around == start;
    }
    EventsOfAppend(start, around, self);
    EventsOfAppend(start + around, done, self);
  }

  class Template {
    /** The file this template executes. */
    const path: Path
    /** The section store: `has(key)` is `key in sections`, and
        `get(key)->content()` is `sections[key]`. */
    const sections: map<Name, string>
    const engine: Engine
    const command: Dispatcher
    /** How a file executes (PHP include with output buffering). */
    const exec: Body
    /** The data of the current render. */
    var data: Data
    /** The body's output captured by the last render. */
    var buffer: string
    /** The resolved path of the layout chosen for the next render pass,
        once `layout()` has succeeded; a successful render clears it. */
    var layout: Option<Path>

    constructor (path: Path, sections: map<Name, string>, engine: Engine, command: Dispatcher, exec: Body)
      ensures this.path == path && this.sections == sections && this.exec == exec
      ensures this.engine == engine && this.command == command
      ensures data == [] && buffer == "" && layout == None
    {
      this.path := path;
      this.sections := sections;
      this.engine := engine;
      this.command := command;
      this.exec := exec;
      data := [];
      buffer := "";
      layout := None;
    }

    /** An unknown method name called on the template: handed verbatim to
        the dispatcher's `run`, once, and its answer returned unchanged. */
    method Call(name: Name, args: seq<Value>) returns (r: Value)
      modifies command
      ensures r == command.run(name, args)
      ensures command.calls == old(command.calls) + [RunCall(name, args)]
    {
      r := command.Run(name, args);
    }

    /** `filter($spec, $value, $args)`: the pipeline `spec` folded over
        `value`, one dispatcher call per stage, in order. */
    method Filter(spec: string, value: Value, args: seq<seq<Value>> := []) returns (r: Value)
      modifies command
      ensures r == Fold(command.filter, Stages(spec), args, value)
      ensures command.calls == old(command.calls) + FilterCalls(command.filter, Stages(spec), args, value)
    {
      var stages := Stages(spec);
      r := value;
      var i := 0;
      while i < |stages|
        invariant 0 <= i <= |stages|
        invariant r == Fold(command.filter, stages[..i], args, value)
        invariant command.calls == old(command.calls) + FilterCalls(command.filter, stages[..i], args, value)
      {
        assert stages[..i + 1][..i] == stages[..i];
        var out := command.Filter(stages[i], r, ArgsFor(args, i));
        if out.Some? {
          r := out.value;
        }
        i := i + 1;
      }
      assert stages[..i] == stages;
    }

    /** `layout($name)`: resolve the name and keep the path; an unknown name
        throws and leaves the layout as it was. No event fires either way. */
    method Layout(name: Name) returns (r: Outcome<Error>)
      modifies this`layout, engine
      ensures engine.log == old(engine.log) + [FindCall(name)]
      ensures r.Fail? <==> engine.find(name).None?
      ensures r.Fail? ==> r.error == InvalidArgument(name) && layout == old(layout)
      ensures r.Pass? ==> layout == engine.find(name)
    {
      var found := engine.Find(name);
      match found {
        case None => r := Fail(InvalidArgument(name));
        case Some(p) =>
          layout := Some(p);
          r := Pass;
      }
    }

    /** The body's output captured by the last render, layout or not
        (see `Render`, which sets it to `RenderSpec`'s buffer). */
    function LastBuffer(): (b: string)
      reads this
      ensures b == buffer
    {
      buffer
    }

    /** `render($data)`: fire prerender, execute the body (which may call
        `layout()`), render the layout itself if one is in force, fire
        rendered, clear the layout, and return the layout's output or else
        the body's. */
    method Render(d: Data) returns (r: Result<string, Error>)
      modifies this, engine
      ensures data == d
      ensures var spec := RenderSpec(this, exec, engine.find, path, d, old(layout), old(buffer));
        r == spec.result && buffer == spec.buffer && layout == spec.layout
        && engine.log == old(engine.log) + spec.log
    {
      data := d;
      engine.Fire(PreRender, this);
      var body := exec(path, data, buffer);
      if body.layoutRequest.Some? {
        var ok := Layout(body.layoutRequest.value);
        if ok.Fail? {
          return Failure(ok.error);
        }
      }
      buffer := body.output;
      match layout {
        case None =>
          r := Success(buffer);
        case Some(p) =>
          engine.Fire(Event.Layout(p), this);
          r := Success(exec(p, data, buffer).output);
          engine.Fire(RenderLayout(p), this);
      }
      engine.Fire(Rendered, this);
      layout := None;
    }

    /** `supply($key, $default)`: the section's content when the store has
        it; otherwise the plain default as given, or what the callable
        default returns for the key and this template. With no default and
        no section the contract promises nothing: the empty string returned
        then is a placeholder. */
    function Supply(key: Name, default: Default): (r: Value)
      ensures key in sections ==> r == Str(sections[key])
      ensures key !in sections && default.Plain? ==> r == default.value
      ensures key !in sections && default.Callable? ==> r == default.fn(key, this)
    {
      if key in sections then Str(sections[key])
      else match default
        case Omitted => Str("")
        case Plain(v) => v
        case Callable(fn) => fn(key, this)
    }

    /** `insert($name, $context)`: prepartial, one engine render of the
        partial, afterpartial; the partial's output is returned. */
    method Insert(name: Name, context: Data := []) returns (r: string)
      modifies engine
      ensures r == engine.render(name, context)
      ensures engine.log == old(engine.log)
        + [FireCall(PrePartial(name, context), this), RenderCall(name, context), FireCall(AfterPartial, this)]
    {
      engine.Fire(PrePartial(name, context), this);
      r := engine.Render(name, context);
      engine.Fire(AfterPartial, this);
    }

    /** `insertif($name, $context)`: `insert` when the name resolves, else
        the empty string with no event and no render. */
    method InsertIf(name: Name, context: Data := []) returns (r: string)
      modifies engine
      ensures engine.find(name).None? ==> r == "" && engine.log == old(engine.log) + [FindCall(name)]
      ensures engine.find(name).Some? ==>
        r == engine.render(name, context)
        && engine.log == old(engine.log) + [FindCall(name), FireCall(PrePartial(name, context), this),
                                            RenderCall(name, context), FireCall(AfterPartial, this)]
    {
      var found := engine.Find(name);
      if found.None? {
        return "";
      }
      r := Insert(name, context);
    }
  }
}
