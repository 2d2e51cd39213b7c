/** The filter pipeline of `Template::filter`: a `|`-separated list of stage
    names folded left to right over a value, stage i getting the i-th
    argument list (or none), a stage answering `null` leaving the running
    value as it was. */
module Pipeline {
  import opened Values
  import opened Collaborators

  const Delimiter: char := '|'

  /** Position of the first `c` in `s`. */
  function IndexOf(s: string, c: char): (k: nat)
    requires c in s
    ensures k < |s| && s[k] == c && c !in s[..k]
  {
    if s[0] == c then 0
    else
      var k := 1 + IndexOf(s[1..], c);
      assert s[..k] == [s[0]] + s[1..][..k - 1];
      k
  }

  /** `implode('|', parts)`. */
  function Join(parts: seq<string>): string
  {
    if parts == [] then ""
    else if |parts| == 1 then parts[0]
    else parts[0] + [Delimiter] + Join(parts[1..])
  }

  /** `explode('|', s)`: the pieces between delimiters, always at least one
      (an empty spec is one stage with an empty name). */
  function Split(s: string): (stages: seq<string>)
    ensures |stages| >= 1
    ensures forall i :: 0 <= i < |stages| ==> Delimiter !in stages[i]
    ensures Join(stages) == s
    decreases |s|
  {
    if Delimiter !in s then [s]
    else
      var k := IndexOf(s, Delimiter);
      var rest := Split(s[k + 1..]);
      assert ([s[..k]] + rest)[1..] == rest;
      assert s == s[..k] + [Delimiter] + s[k + 1..];
      [s[..k]] + rest
  }

  /** The stage names of a filter spec: none for the empty spec, otherwise
      the pieces between delimiters as `explode('|', spec)` gives them. */
  function Stages(spec: string): (stages: seq<Name>)
    ensures spec == "" <==> stages == []
    ensures forall i :: 0 <= i < |stages| ==> Delimiter !in stages[i]
    ensures Join(stages) == spec
  {
    if spec == "" then [] else Split(spec)
  }

  /** An empty spec makes no dispatcher call and returns the value as given. */
  lemma EmptySpec(f: FilterFn, args: seq<seq<Value>>, v: Value)
    ensures Fold(f, Stages(""), args, v) == v
    ensures FilterCalls(f, Stages(""), args, v) == []
  {
  }

  /** Splitting undoes joining, for stage names free of the delimiter. */
  lemma {:induction false} SplitJoin(parts: seq<string>)
    requires |parts| >= 1
    requires forall i :: 0 <= i < |parts| ==> Delimiter !in parts[i]
    ensures Split(Join(parts)) == parts
  {
    if |parts| > 1 {
      var s := Join(parts);
      var n := |parts[0]|;
      assert s == parts[0] + [Delimiter] + Join(parts[1..]);
      assert s[n] == Delimiter;
      var k := IndexOf(s, Delimiter);
      assert k == n;
      assert s[..k] == parts[0];
      assert s[k + 1..] == Join(parts[1..]);
      SplitJoin(parts[1..]);
    }
  }

  /** The argument list stage i receives: `$args[$i]`, or `[]` when absent. */
  function ArgsFor(args: seq<seq<Value>>, i: nat): seq<Value>
  {
    if i < |args| then args[i] else []
  }

  /** One stage applied to the running value: a declining stage keeps it. */
  function Step(acc: Value, out: Option<Value>): Value
  {
    match out
    case Some(v) => v
    case None => acc
  }

  /** The running value after folding `stages` over `v`. */
  function Fold(f: FilterFn, stages: seq<Name>, args: seq<seq<Value>>, v: Value): Value
    decreases |stages|
  {
    if stages == [] then v
    else
      var n := |stages| - 1;
      var acc := Fold(f, stages[..n], args, v);
      Step(acc, f(stages[n], acc, ArgsFor(args, n)))
  }

  /** The requests the fold makes of the dispatcher, in order. */
  function FilterCalls(f: FilterFn, stages: seq<Name>, args: seq<seq<Value>>, v: Value): seq<CommandCall>
    decreases |stages|
  {
    if stages == [] then []
    else
      var n := |stages| - 1;
      FilterCalls(f, stages[..n], args, v)
        + [FilterCall(stages[n], Fold(f, stages[..n], args, v), ArgsFor(args, n))]
  }

  /** What each stage answered, in order. */
  function Answers(f: FilterFn, stages: seq<Name>, args: seq<seq<Value>>, v: Value): seq<Option<Value>>
    decreases |stages|
  {
    if stages == [] then []
    else
      var n := |stages| - 1;
      Answers(f, stages[..n], args, v)
        + [f(stages[n], Fold(f, stages[..n], args, v), ArgsFor(args, n))]
  }

  /** The last answer that was not `null`, or `d` when every stage declined. */
  function LastAnswer(answers: seq<Option<Value>>, d: Value): Value
  {
    if answers == [] then d
    else if answers[|answers| - 1].Some? then answers[|answers| - 1].value
    else LastAnswer(answers[..|answers| - 1], d)
  }

  /** The call the fold makes for stage i. */
  lemma {:induction false} FilterCallAt(f: FilterFn, stages: seq<Name>, args: seq<seq<Value>>, v: Value, i: nat)
    requires i < |stages|
    ensures |FilterCalls(f, stages, args, v)| == |stages|
    ensures FilterCalls(f, stages, args, v)[i] == FilterCall(stages[i], Fold(f, stages[..i], args, v), ArgsFor(args, i))
    decreases |stages|
  {
    var n := |stages| - 1;
    var prefix := stages[..n];
    if n == 0 {
      assert FilterCalls(f, prefix, args, v) == [];
    } else if i == n {
      FilterCallAt(f, prefix, args, v, 0);
    } else {
      FilterCallAt(f, prefix, args, v, i);
      assert prefix[..i] == stages[..i];
      assert prefix[i] == stages[i];
    }
  }

  /** Stage i is called with its own name, the previous stage's result (the
      input value for the first) and its own argument list. */
  lemma FilterCallsShape(f: FilterFn, stages: seq<Name>, args: seq<seq<Value>>, v: Value)
    ensures |FilterCalls(f, stages, args, v)| == |stages|
    ensures forall i :: 0 <= i < |stages| ==>
      FilterCalls(f, stages, args, v)[i] == FilterCall(stages[i], Fold(f, stages[..i], args, v), ArgsFor(args, i))
  {
    if stages == [] {
      assert FilterCalls(f, stages, args, v) == [];
    } else {
      FilterCallAt(f, stages, args, v, 0);
    }
    forall i | 0 <= i < |stages|
      ensures FilterCalls(f, stages, args, v)[i] == FilterCall(stages[i], Fold(f, stages[..i], args, v), ArgsFor(args, i))
    {
      FilterCallAt(f, stages, args, v, i);
    }
  }

  /** The pipeline's result is the answer of the last stage that did not
      decline, or the input value when all declined. */
  lemma {:induction false} FoldIsLastAnswer(f: FilterFn, stages: seq<Name>, args: seq<seq<Value>>, v: Value)
    ensures |Answers(f, stages, args, v)| == |stages|
    ensures Fold(f, stages, args, v) == LastAnswer(Answers(f, stages, args, v), v)
  {
    if stages != [] {
      var n := |stages| - 1;
      FoldIsLastAnswer(f, stages[..n], args, v);
      var answers := Answers(f, stages, args, v);
      assert answers[..n] == Answers(f, stages[..n], args, v);
    }
  }

  /** A pipeline whose every stage declines returns its input unchanged. */
  lemma {:induction false} AllDecline(f: FilterFn, stages: seq<Name>, args: seq<seq<Value>>, v: Value)
    requires forall i, x :: 0 <= i < |stages| ==> f(stages[i], x, ArgsFor(args, i)) == None
    ensures Fold(f, stages, args, v) == v
  {
    if stages != [] {
      var n := |stages| - 1;
      AllDecline(f, stages[..n], args, v);
      assert f(stages[n], v, ArgsFor(args, n)) == None;
    }
  }

  /** Running a pipeline in two parts, the second on the first's result,
      is running it whole, provided each part brings its own argument lists. */
  lemma {:induction false} FoldCompose(f: FilterFn, s1: seq<Name>, s2: seq<Name>, a1: seq<seq<Value>>, a2: seq<seq<Value>>, v: Value)
    requires |a1| == |s1|
    ensures Fold(f, s1 + s2, a1 + a2, v) == Fold(f, s2, a2, Fold(f, s1, a1, v))
    decreases |s2|
  {
    if s2 == [] {
      assert s1 + s2 == s1;
      FoldArgsPrefix(f, s1, a1, a2, v);
    } else {
      var n := |s2| - 1;
      FoldCompose(f, s1, s2[..n], a1, a2, v);
      assert (s1 + s2)[..|s1| + n] == s1 + s2[..n];
      assert ArgsFor(a1 + a2, |s1| + n) == ArgsFor(a2, n);
    }
  }

  /** Argument lists past the last stage are never looked at. */
  lemma {:induction false} FoldArgsPrefix(f: FilterFn, stages: seq<Name>, args: seq<seq<Value>>, extra: seq<seq<Value>>, v: Value)
    requires |args| == |stages|
    ensures Fold(f, stages, args + extra, v) == Fold(f, stages, args, v)
    decreases |stages|
  {
    if stages != [] {
      var n := |stages| - 1;
      FoldArgsPrefix(f, stages[..n], args[..n], extra, v);
      assert args[..n] + ([args[n]] + extra) == args + extra;
      FoldArgsIrrelevant(f, stages[..n], args[..n] + ([args[n]] + extra), args[..n] + extra, v);
      FoldArgsIrrelevant(f, stages[..n], args, args[..n], v);
      assert ArgsFor(args + extra, n) == ArgsFor(args, n);
    }
  }

  /** The fold over `stages` reads only the first |stages| argument lists. */
  lemma {:induction false} FoldArgsIrrelevant(f: FilterFn, stages: seq<Name>, a: seq<seq<Value>>, b: seq<seq<Value>>, v: Value)
    requires forall i :: 0 <= i < |stages| ==> ArgsFor(a, i) == ArgsFor(b, i)
    ensures Fold(f, stages, a, v) == Fold(f, stages, b, v)
    decreases |stages|
  {
    if stages != [] {
      var n := |stages| - 1;
      FoldArgsIrrelevant(f, stages[..n], a, b, v);
    }
  }
}
