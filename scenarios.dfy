/** The executor's test suite, one method per test function: the mocked
    collaborators become concrete collaborator functions, and the mocks'
    `once()`/`with(...)` expectations become statements about the logs. */
module Scenarios {
  import opened Values
  import opened Collaborators
  import opened Pipeline
  import opened Template

  const NoFind: Name -> Option<Path> := (n: Name) => None
  const NoRender: (Name, Data) -> string := (n: Name, c: Data) => ""
  const NoRun: (Name, seq<Value>) -> Value := (n: Name, a: seq<Value>) => Str("")
  const NoFilter: FilterFn := (n: Name, v: Value, a: seq<Value>) => None
  const NoBody: Body := (p: Path, d: Data, b: string) => Run("", None)

  /** The fixture `foo.php` (echoes the data joined by ",") and its layout
      `bar.inc` (echoes the data joined by "|"). */
  const BodyFile: Path := "/tests/_files/foo/foo.php"
  const LayoutFile: Path := "/tests/_files/foo/bar.inc"

  function Text(v: Value): string
  {
    if v.Str? then v.s else ""
  }

  /** `implode($glue, $data)` over string values. */
  function Implode(glue: string, d: Data): string
  {
    if d == [] then ""
    else if |d| == 1 then Text(d[0].1)
    else Text(d[0].1) + glue + Implode(glue, d[1..])
  }

  const Fixtures: Body := (p: Path, d: Data, b: string) =>
    if p == LayoutFile then Run(Implode("|", d), None) else Run(Implode(",", d), None)

  /** `['foo', 'bar']` */
  const FooBar: Data := [("0", Str("foo")), ("1", Str("bar"))]

  lemma FixtureOutputs()
    ensures forall b :: Fixtures(BodyFile, FooBar, b) == Run("foo,bar", None)
    ensures forall b :: Fixtures(LayoutFile, FooBar, b) == Run("foo|bar", None)
  {
    assert BodyFile != LayoutFile by { assert BodyFile[|BodyFile| - 1] != LayoutFile[|LayoutFile| - 1]; }
    assert FooBar[1..] == [("1", Str("bar"))];
  }

  /** testCall: `$template->foo('bar')` is `run('foo', 'bar')`, once. */
  method CallForwardsToRun() returns (r: Value, calls: seq<CommandCall>)
    ensures r == Str("Foo!")
    ensures calls == [RunCall("foo", [Str("bar")])]
  {
    var engine := new Engine(NoFind, NoRender);
    var command := new Dispatcher(
      (n: Name, a: seq<Value>) => if n == "foo" && a == [Str("bar")] then Str("Foo!") else Str(""),
      NoFilter);
    var t := new Template("/path", map[], engine, command, NoBody);
    r := t.Call("foo", [Str("bar")]);
    calls := command.calls;
  }

  /** The filter mock of testFilter: the four stages answer foo, bar, null
      and baz. */
  function FooBarNullBaz(n: Name, v: Value, a: seq<Value>): Option<Value>
  {
    if n == "first" then Some(Str("foo"))
    else if n == "foo" then Some(Str("bar"))
    else if n == "baz" then Some(Str("baz"))
    else None
  }

  /** The filter mock of testFilterArgs: it answers only the two expected
      calls. */
  function LoremIpsum(n: Name, v: Value, a: seq<Value>): Option<Value>
  {
    if n == "first" && v == Str("Lorem Ipsum") && a == [Str("foo")] then Some(Str("Lorem!"))
    else if n == "last" && v == Str("Lorem!") && a == [Str("bar")] then Some(Str("Ipsum!"))
    else None
  }

  const Lorem: Value := Str("Lorem Ipsum")

  const FourStages: seq<Name> := ["first", "foo", "bar", "baz"]

  lemma FourStagesSplit()
    ensures Stages("first|foo|bar|baz") == FourStages
  {
    assert Join(FourStages) == "first|foo|bar|baz";
    SplitJoin(FourStages);
  }

  /** The running values of testFilter's pipeline after each stage. */
  lemma FooBarNullBazFold()
    ensures Fold(FooBarNullBaz, FourStages[..1], [], Lorem) == Str("foo")
    ensures Fold(FooBarNullBaz, FourStages[..2], [], Lorem) == Str("bar")
    ensures Fold(FooBarNullBaz, FourStages[..3], [], Lorem) == Str("bar")
    ensures Fold(FooBarNullBaz, FourStages, [], Lorem) == Str("baz")
  {
    assert FourStages[..1] == ["first"] && FourStages[..2] == ["first", "foo"];
    assert FourStages[..3] == ["first", "foo", "bar"];
    assert FourStages[..3][..2] == FourStages[..2] && FourStages[..2][..1] == FourStages[..1];
  }

  /** The calls testFilter's pipeline makes. */
  lemma FooBarNullBazCalls()
    ensures FilterCalls(FooBarNullBaz, FourStages, [], Lorem)
      == [FilterCall("first", Lorem, []), FilterCall("foo", Str("foo"), []),
          FilterCall("bar", Str("bar"), []), FilterCall("baz", Str("bar"), [])]
  {
    FooBarNullBazFold();
    FilterCallsShape(FooBarNullBaz, FourStages, [], Lorem);
    assert FourStages[..0] == [];
  }

  /** testFilter: the stages answer foo, bar, null, baz; the null is skipped
      and every stage gets an empty argument list. */
  method FilterSkipsDecliningStage() returns (r: Value, calls: seq<CommandCall>)
    ensures r == Str("baz")
    ensures calls == [FilterCall("first", Lorem, []), FilterCall("foo", Str("foo"), []),
                      FilterCall("bar", Str("bar"), []), FilterCall("baz", Str("bar"), [])]
  {
    var engine := new Engine(NoFind, NoRender);
    var command := new Dispatcher(NoRun, FooBarNullBaz);
    var t := new Template("/path", map[], engine, command, NoBody);
    FourStagesSplit();
    FooBarNullBazFold();
    FooBarNullBazCalls();
    r := t.Filter("first|foo|bar|baz", Lorem);
    calls := command.calls;
  }

  const TwoStages: seq<Name> := ["first", "last"]

  const FooBarArgs: seq<seq<Value>> := [[Str("foo")], [Str("bar")]]

  lemma TwoStagesSplit()
    ensures Stages("first|last") == TwoStages
  {
    assert Join(TwoStages) == "first|last";
    SplitJoin(TwoStages);
  }

  /** The running values of testFilterArgs' pipeline after each stage. */
  lemma LoremIpsumFold()
    ensures Fold(LoremIpsum, TwoStages[..1], FooBarArgs, Lorem) == Str("Lorem!")
    ensures Fold(LoremIpsum, TwoStages, FooBarArgs, Lorem) == Str("Ipsum!")
  {
    assert TwoStages[..1] == ["first"];
    assert TwoStages[..1][..0] == [];
    assert ArgsFor(FooBarArgs, 0) == [Str("foo")];
    assert LoremIpsum("first", Lorem, [Str("foo")]) == Some(Str("Lorem!"));
    assert ArgsFor(FooBarArgs, 1) == [Str("bar")];
    assert LoremIpsum("last", Str("Lorem!"), [Str("bar")]) == Some(Str("Ipsum!"));
  }

  /** The calls testFilterArgs' pipeline makes. */
  lemma LoremIpsumCalls()
    ensures FilterCalls(LoremIpsum, TwoStages, FooBarArgs, Lorem)
      == [FilterCall("first", Lorem, [Str("foo")]), FilterCall("last", Str("Lorem!"), [Str("bar")])]
  {
    LoremIpsumFold();
    FilterCallsShape(LoremIpsum, TwoStages, FooBarArgs, Lorem);
    assert TwoStages[..0] == [];
  }

  /** testFilterArgs: stage i gets the i-th argument list and the previous
      stage's result. */
  method FilterPassesArgsPerStage() returns (r: Value, calls: seq<CommandCall>)
    ensures r == Str("Ipsum!")
    ensures calls == [FilterCall("first", Str("Lorem Ipsum"), [Str("foo")]),
                      FilterCall("last", Str("Lorem!"), [Str("bar")])]
  {
    var engine := new Engine(NoFind, NoRender);
    var answers: FilterFn := LoremIpsum;
    var command := new Dispatcher(NoRun, answers);
    var t := new Template("/path", map[], engine, command, NoBody);
    TwoStagesSplit();
    LoremIpsumFold();
    LoremIpsumCalls();
    r := t.Filter("first|last", Lorem, FooBarArgs);
    calls := command.calls;
  }

  /** testRenderNoLayout: prerender then rendered, once each, and the body's
      output is returned. */
  method RenderWithoutLayout() returns (t: Template, r: Result<string, Error>, log: seq<EngineCall>)
    ensures r == Success("foo,bar")
    ensures log == [FireCall(PreRender, t), FireCall(Rendered, t)]
  {
    var engine := new Engine(NoFind, NoRender);
    var command := new Dispatcher(NoRun, NoFilter);
    t := new Template(BodyFile, map[], engine, command, Fixtures);
    FixtureOutputs();
    r := t.Render(FooBar);
    log := engine.log;
  }

  /** testLayoutFailsIfBadFile: an unresolvable layout name throws. */
  method LayoutFailsIfBadFile() returns (r: Outcome<Error>, log: seq<EngineCall>)
    ensures r == Fail(InvalidArgument("foo"))
    ensures log == [FindCall("foo")]
  {
    var engine := new Engine(NoFind, NoRender);
    var command := new Dispatcher(NoRun, NoFilter);
    var t := new Template("/path", map[], engine, command, NoBody);
    r := t.Layout("foo");
    log := engine.log;
  }

  /** testRenderLayout: with `bar.inc` chosen before rendering, the layout's
      output is returned, the four events fire in order, the engine renders
      nothing, and `lastBuffer()` is still the body's output. */
  method RenderWithLayout() returns (t: Template, r: Result<string, Error>, last: string, log: seq<EngineCall>)
    ensures r == Success("foo|bar")
    ensures last == "foo,bar"
    ensures log == [FindCall("bar.inc"), FireCall(PreRender, t), FireCall(Layout(LayoutFile), t),
                    FireCall(RenderLayout(LayoutFile), t), FireCall(Rendered, t)]
  {
    var engine := new Engine((n: Name) => if n == "bar.inc" then Some(LayoutFile) else None, NoRender);
    var command := new Dispatcher(NoRun, NoFilter);
    t := new Template(BodyFile, map[], engine, command, Fixtures);
    FixtureOutputs();
    var ok := t.Layout("bar.inc");
    r := t.Render(FooBar);
    last := t.LastBuffer();
    log := engine.log;
  }

  /** testSupply: a section the store has wins. */
  method SupplyExistingSection() returns (r: Value)
    ensures r == Str("Ok!")
  {
    var engine := new Engine(NoFind, NoRender);
    var command := new Dispatcher(NoRun, NoFilter);
    var t := new Template("/path", map["foo" := "Ok!"], engine, command, NoBody);
    r := t.Supply("foo", Omitted);
  }

  /** testSupplyDefaultString: a missing section gives the plain default. */
  method SupplyDefaultString() returns (r: Value)
    ensures r == Str("Ok!")
  {
    var engine := new Engine(NoFind, NoRender);
    var command := new Dispatcher(NoRun, NoFilter);
    var t := new Template("/path", map[], engine, command, NoBody);
    r := t.Supply("foo", Plain(Str("Ok!")));
  }

  /** testSupplyDefaultCallable: a missing section calls the default with the
      key and the template itself (the callable answers "Ok!" only then). */
  method SupplyDefaultCallable() returns (r: Value)
    ensures r == Str("Ok!")
  {
    var engine := new Engine(NoFind, NoRender);
    var command := new Dispatcher(NoRun, NoFilter);
    var t := new Template("/path", map[], engine, command, NoBody);
    r := t.Supply("foo", Callable((k: Name, tmpl: Template) => if k == "foo" && tmpl == t then Str("Ok!") else Str("")));
  }

  /** testInsert: prepartial, one engine render, afterpartial. */
  method InsertFiresAroundRender() returns (t: Template, r: string, log: seq<EngineCall>)
    ensures r == "Ok!"
    ensures log == [FireCall(PrePartial("foo", [("foo", Str("foo"))]), t),
                    RenderCall("foo", [("foo", Str("foo"))]),
                    FireCall(AfterPartial, t)]
  {
    var engine := new Engine(NoFind,
      (n: Name, c: Data) => if n == "foo" && c == [("foo", Str("foo"))] then "Ok!" else "");
    var command := new Dispatcher(NoRun, NoFilter);
    t := new Template("/path", map[], engine, command, NoBody);
    r := t.Insert("foo", [("foo", Str("foo"))]);
    log := engine.log;
  }

  /** testInsertIfDoNothingIfFileNotExists: an unresolvable partial gives ""
      after one lookup, with no event and no render. */
  method InsertIfMissingPartial() returns (r: string, log: seq<EngineCall>)
    ensures r == ""
    ensures log == [FindCall("foo")]
  {
    var engine := new Engine(NoFind, NoRender);
    var command := new Dispatcher(NoRun, NoFilter);
    var t := new Template("/path", map[], engine, command, NoBody);
    r := t.InsertIf("foo");
    log := engine.log;
  }
}
