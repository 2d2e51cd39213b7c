# Foil template executor

A Dafny model of `Foil\Template\Template`, the object that runs one template
file of the Foil PHP template engine. Its behaviour is taken from the unit
tests in `tests/src/Unit/Template/TemplateTest.php`, which drive the executor
through mocked collaborators. The model covers:

- forwarding an unknown method name to the command dispatcher (`__call` / `call`);
- the filter pipeline `filter("a|b|c", $value, $argsPerStage)`;
- the render state machine (`render`, `layout`, `lastBuffer`) and the events
  it fires;
- section fallback (`supply`);
- partial insertion (`insert`, `insertif`).

The modules follow the executor's structure:

- `Values`: PHP values, the data context (an ordered key/value array), and the
  `Option`/`Result`/`Outcome` wrappers. These stand for `null`/`false`
  sentinels and thrown exceptions.
- `Collaborators`: the engine and the command dispatcher. Each is a class
  whose answers are fixed functions given at construction: `find`, `render`,
  `run` and `filter`. Each keeps a log of the requests made of it, and the log
  only ever grows. A mock's `once()->with(...)` expectation becomes a
  statement about that log. `fire` only appends to the engine's log.
- `Pipeline`: `explode('|', ...)` as `Split`, and the filter fold as a
  recursive function. The lemmas cover the round trip of `Split` and `Join`,
  which arguments each stage receives, the "last answer that was not null"
  characterisation, the all-decline identity, and composition.
- `Template`: the executor class. `RenderSpec` is the render state machine as
  a function. The `Render` method is proved equal to it.
- `Scenarios`: one method per test function. Each builds the mocked
  collaborators as concrete functions and proves the test's assertions.

Executing a template file is a constant `exec: (path, data, lastBuffer) ->
Run(output, layoutRequest)` of the template. It stands for PHP's `include`
with output buffering, and for any `$this->layout(...)` call the file makes.
The section store is a map from key to content: `has(key)` is `key in
sections`, and `get(key)->content()` is `sections[key]`.

Three details of the model:

- The template executes its layout file itself, under the same data. The
  layout is not rendered through `Engine::render`: in `testRenderLayout` the
  engine mock expects no `render` call, yet the render returns the layout's
  output.
- The stage names of a filter spec are the pieces between `|` delimiters, as
  PHP's `explode('|', $spec)` gives them. The empty spec has no stages: the
  value comes back unchanged and the dispatcher is not called.
- A layout belongs to the render pass that applies it. A successful render
  clears the layout field, so rendering the same template again does not wrap
  its output in the old layout unless a layout is chosen again. A render that
  fails on an unknown layout name leaves the field as it was.

## Model

| member | source | states |
|---|---|---|
| `Collaborators.Engine.Find` | tests/src/Unit/Template/TemplateTest.php:126 | `find` answers the resolved path or the `false` sentinel (None), and the lookup is logged once |
| `Collaborators.Engine.Render` | tests/src/Unit/Template/TemplateTest.php:254-257 | the engine renders a named partial under a context; the call is logged once with its arguments |
| `Collaborators.Engine.Fire` | tests/src/Unit/Template/TemplateTest.php:103-111 | firing an event appends exactly that event and its source to the log, in order |
| `Collaborators.Dispatcher.Run` | tests/src/Unit/Template/TemplateTest.php:32 | `run(name, args)` returns the helper's answer and is logged once with its arguments |
| `Collaborators.Dispatcher.Filter` | tests/src/Unit/Template/TemplateTest.php:49-51 | `filter(name, value, args)` returns the stage's answer (None for `null`) and is logged once with its arguments |
| `Template.Template.constructor` | tests/src/Unit/Template/TemplateTest.php:34 | a template is built on a path, a section store, an engine and a dispatcher, with no data, an empty buffer and no layout |
| `Template.Template.Call` | tests/src/Unit/Template/TemplateTest.php:24-37 | an unknown name and its arguments go verbatim to the dispatcher's `run`, exactly once, and its result comes back unchanged |
| `Pipeline.Split` | tests/src/Unit/Template/TemplateTest.php:54 | the spec splits on the bar delimiter into at least one stage; no stage contains the delimiter; joining the stages with it gives the spec back |
| `Pipeline.Stages` | tests/src/Unit/Template/TemplateTest.php:54 | the empty spec has no stages and any other spec has the pieces `Split` gives; no stage contains the delimiter, and joining the stages gives the spec back |
| `Pipeline.EmptySpec` | tests/src/Unit/Template/TemplateTest.php:54 | filtering with the empty spec returns the value unchanged and makes no dispatcher call |
| `Pipeline.SplitJoin` | tests/src/Unit/Template/TemplateTest.php:78 | splitting a bar-joined list of delimiter-free stage names gives that list back |
| `Template.Template.Filter` | tests/src/Unit/Template/TemplateTest.php:57-81 | the result is the left fold of the spec's stages over the value, and the dispatcher receives exactly the fold's calls, one per stage, in order |
| `Pipeline.FilterCallsShape` | tests/src/Unit/Template/TemplateTest.php:67-74 | there is one call per stage; stage i gets its own name, the running value after stages 0..i-1 (the input for stage 0) and the i-th argument list, or `[]` when there is none |
| `Pipeline.FoldIsLastAnswer` | tests/src/Unit/Template/TemplateTest.php:49-54 | the pipeline's result is the last stage answer that was not `null`, or the input when every stage declined |
| `Pipeline.AllDecline` | tests/src/Unit/Template/TemplateTest.php:49-51 | when every stage answers `null`, the input comes back unchanged |
| `Pipeline.FoldCompose` | tests/src/Unit/Template/TemplateTest.php:78 | running the pipeline a then b is running b on the result of a, each with its own argument lists |
| `Template.Template.Layout` | tests/src/Unit/Template/TemplateTest.php:120-131 | the name is looked up once and no event fires; an unknown name fails with InvalidArgument and keeps the old layout; a known name sets the layout to the resolved path |
| `Template.RenderSpec` | tests/src/Unit/Template/TemplateTest.php:133-179 | prerender is the first request and the engine renders nothing. On success rendered is the last request, the buffer is the body's output, the layout applied is the one the body resolved or else the one set before the render, the result is that layout's output under the same data, or the body's output when no layout applies, and no layout is left set for a later render. The render fails with InvalidArgument exactly when the body asks for an unresolvable layout; it then ends on that lookup, after prerender, with buffer and layout unchanged |
| `Template.RenderEvents` | tests/src/Unit/Template/TemplateTest.php:151-169 | a render fires exactly prerender, rendered with no layout, or prerender, layout(P), renderlayout(P), rendered with layout P; a failed render fires only prerender |
| `Template.RenderLookups` | tests/src/Unit/Template/TemplateTest.php:171-177 | a render looks up exactly the layout name its body asks for, once, and nothing when the body asks for none; a layout chosen with `layout()` before the render is not looked up again |
| `Template.Template.LastBuffer` | tests/src/Unit/Template/TemplateTest.php:178 | returns the buffer field; `Render` sets that field to the body's own output, so after a render with a layout it is the body's output, not the layout's |
| `Template.Template.Render` | tests/src/Unit/Template/TemplateTest.php:83-115 | the data, the result, the buffer left for `lastBuffer()`, the layout left set (none after a successful render) and the engine requests are exactly those of `RenderSpec` from the state before the render |
| `Template.Template.Supply` | tests/src/Unit/Template/TemplateTest.php:181-232 | an existing section's content wins; otherwise a plain default is returned as given, and a callable default is called with the key and the template |
| `Template.Template.Insert` | tests/src/Unit/Template/TemplateTest.php:234-260 | prepartial(name, context), one engine render of (name, context), then afterpartial; the render's output is returned |
| `Template.Template.InsertIf` | tests/src/Unit/Template/TemplateTest.php:262-274 | an unresolvable name gives `""` after one lookup, with no event and no render; a resolvable one behaves as `insert` after the lookup |
| `Scenarios.CallForwardsToRun` | tests/src/Unit/Template/TemplateTest.php:24-37 | `foo('bar')` returns `Foo!` with one `run('foo', ['bar'])` |
| `Scenarios.FooBarNullBazFold` | tests/src/Unit/Template/TemplateTest.php:49-54 | with answers foo, bar, null, baz the running values are foo, bar, bar (null skipped) and baz |
| `Scenarios.FilterSkipsDecliningStage` | tests/src/Unit/Template/TemplateTest.php:39-55 | filtering 'Lorem Ipsum' through the stages first, foo, bar, baz gives `baz`; the four calls get empty argument lists, and the stage after the declining one sees `bar` |
| `Scenarios.FilterPassesArgsPerStage` | tests/src/Unit/Template/TemplateTest.php:57-81 | the calls are exactly `('first', 'Lorem Ipsum', ['foo'])` then `('last', 'Lorem!', ['bar'])`, and the result is `Ipsum!` |
| `Scenarios.RenderWithoutLayout` | tests/src/Unit/Template/TemplateTest.php:83-115 | rendering `foo.php` with `['foo','bar']` returns `foo,bar`, firing prerender then rendered and nothing else |
| `Scenarios.LayoutFailsIfBadFile` | tests/src/Unit/Template/TemplateTest.php:120-131 | `layout('foo')` with `find('foo') === false` fails with InvalidArgument after one lookup |
| `Scenarios.RenderWithLayout` | tests/src/Unit/Template/TemplateTest.php:133-179 | with `bar.inc` chosen first, render returns the layout's output (the data joined by bars), `lastBuffer()` is `foo,bar`, and the log is the lookup then prerender, layout, renderlayout, rendered |
| `Scenarios.SupplyExistingSection` | tests/src/Unit/Template/TemplateTest.php:181-199 | `supply('foo')`, with no default, returns the stored section's content `Ok!` |
| `Scenarios.SupplyDefaultString` | tests/src/Unit/Template/TemplateTest.php:201-213 | with no section, `supply('foo', 'Ok!')` returns `Ok!` |
| `Scenarios.SupplyDefaultCallable` | tests/src/Unit/Template/TemplateTest.php:215-232 | with no section, the callable default receives `('foo', $template)` and its `Ok!` is returned |
| `Scenarios.InsertFiresAroundRender` | tests/src/Unit/Template/TemplateTest.php:234-260 | `insert('foo', ['foo'=>'foo'])` returns `Ok!`, and the log is prepartial, the render call, afterpartial |
| `Scenarios.InsertIfMissingPartial` | tests/src/Unit/Template/TemplateTest.php:262-274 | `insertif('foo')` with an unresolvable name returns `""`, and the only request is the lookup |

## Left out

- The alias adapter (`alias(new Alias('T'))`, tests/src/Unit/Template/TemplateTest.php:276-300). It dispatches through `__call` on a fixture file whose contents are not part of this model.
- Template.Template.Supply: with the default omitted and no section stored, the contract does not say what is returned. No test states it. The body returns the empty string as a placeholder.
- Executing PHP files, output buffering and building paths with `realpath`/`getenv`. These are replaced by the `exec` function of the template.
- Template.RenderSpec: a template body cannot call `insert`, `filter`, `call` or `supply`. Its only effect is to ask for a layout. So "the engine renders nothing" holds only for bodies that make no such calls. Their engine and dispatcher requests are not part of a render's log.
- Template.RenderEvents: the exact event lists hold for bodies whose only effect is a layout request. A body that inserts a partial would add prepartial and afterpartial events between prerender and rendered, and the model leaves those out.
- Pipeline.Stages: the implementation is not part of this model. The split assumes it uses `explode('|', $spec)`, with the empty spec as the one exception.
- Template.RenderSpec: a body asks for at most one layout (`Run.layoutRequest` is an `Option`). A body that calls `layout()` several times, where each call is a lookup and the last successful one wins, is not modelled.
- Template.RenderSpec: the layout file's own `layout()` request is ignored, and only its output is used. Nested layout chains are not modelled.
- The internals of the engine, the command dispatcher and the section store. Their answers are parameters.
- Exceptions raised by `run`, `filter` or the engine's `render`. The collaborator functions are total.
- The section store's `has` and `get` calls are not logged. `supply` reads a map.
- Collaborators.Dispatcher.Filter: Mockery's `andReturnValues` answers by call order. The model answers by stage name. This reproduces the test because its stage names are distinct.
- `data()` and the data bound as names inside a template file. The data is passed to `exec`, and `Render` records it in the `data` field.
