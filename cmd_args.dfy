/** The command-line argument derivation of `Experiment`: every constructor parameter of the model
    class and of each pipe's operator class becomes an `argparse` option named
    `--<prefix>__<parameter>`. Classes and parameters are plain values here: a class is the
    parameter list of its `__init__` (possibly inherited) and its direct bases; the parser is the
    sequence of `add_argument` calls it received, next to the warnings issued along the way. */
module ExperimentArgs {

  /** The four annotations passed to `argparse` as they are. */
  datatype Scalar = StrType | FloatType | IntType | BoolType

  /** The generic origins taken as "one or more values". */
  datatype Origin = ListOrigin | TupleOrigin | IterableOrigin

  /** A parameter annotation: a scalar type, a generic alias over one of the listed origins with
      its first type argument, or anything else (including no annotation), with its `str()`. */
  datatype Annotation =
    | ScalarType(scalar: Scalar)
    | Generic(origin: Origin, element: Annotation)
    | Unsupported(text: string)

  datatype ParamKind = Regular | VarPositional | VarKeyword

  datatype Param = Param(name: string, kind: ParamKind, annotation: Annotation, hasDefault: bool)

  /** A class: the parameters of its `__init__` and its direct base classes, in order. */
  datatype PyClass = PyClass(name: string, initParams: seq<Param>, bases: seq<PyClass>)

  /** An element of a pipeline: a named pipe around an operator class, or a nested pipeline. */
  datatype PipelineItem = Pipe(name: string, operatorClass: PyClass) | Nested(items: seq<PipelineItem>)

  /** `parser.add_argument(flag, type=argType, required=required)`, with `nargs="+"` when `many`. */
  datatype Argument = Argument(flag: string, argType: Annotation, many: bool, required: bool)

  /** What a derivation step leaves behind: the arguments added and the warnings issued. */
  datatype Derived = Derived(arguments: seq<Argument>, warnings: seq<string>)

  const Nothing := Derived([], [])

  const ModelPrefix := "model"

  /** `a` followed by `b`. */
  function Then(a: Derived, b: Derived): Derived {
    Derived(a.arguments + b.arguments, a.warnings + b.warnings)
  }

  function PipePrefix(name: string): string {
    "pipeline__" + name
  }

  function Flag(prefix: string, name: string): string {
    "--" + prefix + "__" + name
  }

  function UnsupportedMessage(text: string): string {
    "Currently the class " + text + " is not supported for automatic command line importing."
  }

  /** The parameters that are not skipped: every one except `self` and `cls`. */
  predicate Counted(p: Param) {
    p.name != "self" && p.name != "cls"
  }

  /** The option a counted parameter with a supported annotation becomes. */
  function ArgumentFor(p: Param, prefix: string): Argument
    requires !p.annotation.Unsupported?
  {
    match p.annotation
    case ScalarType(_) => Argument(Flag(prefix, p.name), p.annotation, false, !p.hasDefault)
    case Generic(_, element) => Argument(Flag(prefix, p.name), element, true, !p.hasDefault)
  }

  /** How `typing.get_origin(class_) in [list, tuple, Iterable]` is read. `AsWritten` is the code as
      it stands: `Iterable` is `typing.Iterable`, which the origin of `Iterable[T]`
      (`collections.abc.Iterable`) does not compare equal to, so such a parameter falls through to
      the warning, whose text is the annotation's `str()`, given by `str`. `Intended` takes
      `Iterable[T]` like `list[T]`. */
  datatype Rule = AsWritten(str: Annotation -> string) | Intended

  /** The annotations that become an option under `rule`. */
  predicate Supported(rule: Rule, a: Annotation) {
    !a.Unsupported? && !(rule.AsWritten? && a.Generic? && a.origin == IterableOrigin)
  }

  /** The warning for an annotation that does not become an option. */
  function WarningFor(rule: Rule, a: Annotation): string
    requires !Supported(rule, a)
  {
    if a.Unsupported? then UnsupportedMessage(a.text) else UnsupportedMessage(rule.str(a))
  }

  /** One iteration of the loop of `_add_args_to_parser_for_function`. */
  function ParamDerived(rule: Rule, p: Param, prefix: string): Derived {
    if !Counted(p) then Nothing
    else if Supported(rule, p.annotation) then Derived([ArgumentFor(p, prefix)], [])
    else Derived([], [WarningFor(rule, p.annotation)])
  }

  /** `_add_args_to_parser_for_function` over a parameter list. */
  function FunctionDerived(rule: Rule, ps: seq<Param>, prefix: string): Derived
    decreases |ps|
  {
    if |ps| == 0 then Nothing
    else Then(FunctionDerived(rule, ps[..|ps| - 1], prefix), ParamDerived(rule, ps[|ps| - 1], prefix))
  }

  /** `_add_args_to_parser_for_class`: the class's own parameters, then, for its `**kwargs`
      parameter, every base class not excluded, with the same prefix. */
  function ClassDerived(rule: Rule, c: PyClass, prefix: string, excluded: seq<PyClass>): Derived
    decreases c, 2, 0
  {
    Then(FunctionDerived(rule, c.initParams, prefix), KwargsDerived(rule, c, |c.initParams|, prefix, excluded))
  }

  /** The base-class visits made while scanning the first `i` parameters of `c.__init__`. */
  function KwargsDerived(rule: Rule, c: PyClass, i: nat, prefix: string, excluded: seq<PyClass>): Derived
    requires i <= |c.initParams|
    decreases c, 1, i
  {
    if i == 0 then Nothing
    else
      Then(KwargsDerived(rule, c, i - 1, prefix, excluded),
           if c.initParams[i - 1].kind == VarKeyword then BasesDerived(rule, c, |c.bases|, prefix, excluded) else Nothing)
  }

  /** The visits of the first `j` bases of `c`. */
  function BasesDerived(rule: Rule, c: PyClass, j: nat, prefix: string, excluded: seq<PyClass>): Derived
    requires j <= |c.bases|
    decreases c, 0, j
  {
    if j == 0 then Nothing
    else
      Then(BasesDerived(rule, c, j - 1, prefix, excluded),
           if c.bases[j - 1] in excluded then Nothing else ClassDerived(rule, c.bases[j - 1], prefix, excluded))
  }

  /** `_add_args_to_parser_for_pipeline`: a pipe adds its operator class under
      `pipeline__<name>`, a nested pipeline is walked in place. */
  function PipelineDerived(rule: Rule, items: seq<PipelineItem>): Derived
    decreases items
  {
    if |items| == 0 then Nothing
    else
      var last := items[|items| - 1];
      Then(PipelineDerived(rule, items[..|items| - 1]),
           match last
           case Pipe(name, operator) => ClassDerived(rule, operator, PipePrefix(name), [])
           case Nested(inner) => PipelineDerived(rule, inner))
  }

  /** `_get_cmd_args`: the model class under "model" with its `Model` base excluded, then the
      pipeline. */
  function CmdDerived(rule: Rule, modelClass: PyClass, modelBase: PyClass, pipeline: seq<PipelineItem>): Derived {
    Then(ClassDerived(rule, modelClass, ModelPrefix, [modelBase]), PipelineDerived(rule, pipeline))
  }

  /** The `ArgumentParser` being filled, and the warnings issued while filling it. */
  class ArgParser {
    var arguments: seq<Argument>
    var warnings: seq<string>

    function State(): Derived
      reads this
    {
      Derived(arguments, warnings)
    }

    constructor ()
      ensures State() == Nothing
    {
      arguments := [];
      warnings := [];
    }

    /** One iteration of the parameter loop, as written: skip, add the option, or warn. */
    method AddArgForParam(p: Param, prefix: string, str: Annotation -> string)
      modifies this
      ensures State() == Then(old(State()), ParamDerived(AsWritten(str), p, prefix))
    {
      if p.name == "self" || p.name == "cls" {
      } else if p.annotation.ScalarType? {
        arguments := arguments + [Argument(Flag(prefix, p.name), p.annotation, false, !p.hasDefault)];
      } else if p.annotation.Generic? && p.annotation.origin in {ListOrigin, TupleOrigin} {
        // `Iterable[T]` fails this test, see `Rule`.
        arguments := arguments + [Argument(Flag(prefix, p.name), p.annotation.element, true, !p.hasDefault)];
      } else {
        var text := if p.annotation.Unsupported? then p.annotation.text else str(p.annotation);
        warnings := warnings + [UnsupportedMessage(text)];
      }
    }

    method AddArgsForFunction(params: seq<Param>, prefix: string, str: Annotation -> string)
      modifies this
      ensures State() == Then(old(State()), FunctionDerived(AsWritten(str), params, prefix))
    {
      var i := 0;
      while i < |params|
        invariant 0 <= i <= |params|
        invariant State() == Then(old(State()), FunctionDerived(AsWritten(str), params[..i], prefix))
      {
        AddArgForParam(params[i], prefix, str);
        assert params[..i + 1][..i] == params[..i];
        ThenAssoc(old(State()), FunctionDerived(AsWritten(str), params[..i], prefix), ParamDerived(AsWritten(str), params[i], prefix));
        i := i + 1;
      }
      assert params[..i] == params;
    }

    method AddArgsForClass(c: PyClass, prefix: string, excluded: seq<PyClass>, str: Annotation -> string)
      modifies this
      ensures State() == Then(old(State()), ClassDerived(AsWritten(str), c, prefix, excluded))
      decreases c, 1
    {
      AddArgsForFunction(c.initParams, prefix, str);
      ghost var own := State();
      var i := 0;
      while i < |c.initParams|
        invariant 0 <= i <= |c.initParams|
        invariant State() == Then(own, KwargsDerived(AsWritten(str), c, i, prefix, excluded))
      {
        ghost var before := State();
        if c.initParams[i].kind == VarKeyword {
          AddArgsForBases(c, prefix, excluded, str);
        }
        ThenAssoc(own, KwargsDerived(AsWritten(str), c, i, prefix, excluded),
                  if c.initParams[i].kind == VarKeyword then BasesDerived(AsWritten(str), c, |c.bases|, prefix, excluded) else Nothing);
        i := i + 1;
      }
      ThenAssoc(old(State()), FunctionDerived(AsWritten(str), c.initParams, prefix), KwargsDerived(AsWritten(str), c, |c.initParams|, prefix, excluded));
    }

    /** The loop over `class_.__bases__` for a `**kwargs` parameter. */
    method AddArgsForBases(c: PyClass, prefix: string, excluded: seq<PyClass>, str: Annotation -> string)
      modifies this
      ensures State() == Then(old(State()), BasesDerived(AsWritten(str), c, |c.bases|, prefix, excluded))
      decreases c, 0
    {
      var j := 0;
      while j < |c.bases|
        invariant 0 <= j <= |c.bases|
        invariant State() == Then(old(State()), BasesDerived(AsWritten(str), c, j, prefix, excluded))
      {
        if c.bases[j] !in excluded {
          AddArgsForClass(c.bases[j], prefix, excluded, str);
        }
        ThenAssoc(old(State()), BasesDerived(AsWritten(str), c, j, prefix, excluded),
                  if c.bases[j] in excluded then Nothing else ClassDerived(AsWritten(str), c.bases[j], prefix, excluded));
        j := j + 1;
      }
    }

    method AddArgsForPipeline(pipeline: seq<PipelineItem>, str: Annotation -> string)
      modifies this
      ensures State() == Then(old(State()), PipelineDerived(AsWritten(str), pipeline))
      decreases pipeline
    {
      var i := 0;
      while i < |pipeline|
        invariant 0 <= i <= |pipeline|
        invariant State() == Then(old(State()), PipelineDerived(AsWritten(str), pipeline[..i]))
      {
        assert pipeline[..i + 1][..i] == pipeline[..i];
        var step := match pipeline[i]
                    case Pipe(name, operator) => ClassDerived(AsWritten(str), operator, PipePrefix(name), [])
                    case Nested(inner) => PipelineDerived(AsWritten(str), inner);
        match pipeline[i] {
          case Pipe(name, operator) =>
            AddArgsForClass(operator, PipePrefix(name), [], str);
          case Nested(inner) =>
            AddArgsForPipeline(inner, str);
        }
        ThenAssoc(old(State()), PipelineDerived(AsWritten(str), pipeline[..i]), step);
        i := i + 1;
      }
      assert pipeline[..i] == pipeline;
    }
  }

  lemma NothingThen(a: Derived)
    ensures Then(Nothing, a) == a
  {
    assert [] + a.arguments == a.arguments && [] + a.warnings == a.warnings;
  }

  lemma ThenAssoc(a: Derived, b: Derived, c: Derived)
    ensures Then(Then(a, b), c) == Then(a, Then(b, c))
  {
    assert a.arguments + b.arguments + c.arguments == a.arguments + (b.arguments + c.arguments);
    assert a.warnings + b.warnings + c.warnings == a.warnings + (b.warnings + c.warnings);
  }

  /** `Experiment._get_cmd_args`. */
  method GetCmdArgs(modelClass: PyClass, modelBase: PyClass, pipeline: seq<PipelineItem>, str: Annotation -> string) returns (parser: ArgParser)
    ensures fresh(parser) && parser.State() == CmdDerived(AsWritten(str), modelClass, modelBase, pipeline)
  {
    parser := new ArgParser();
    parser.AddArgsForClass(modelClass, ModelPrefix, [modelBase], str);
    parser.AddArgsForPipeline(pipeline, str);
    ThenAssoc(Nothing, ClassDerived(AsWritten(str), modelClass, ModelPrefix, [modelBase]), PipelineDerived(AsWritten(str), pipeline));
    NothingThen(CmdDerived(AsWritten(str), modelClass, modelBase, pipeline));
  }
}

/** Properties of the derivation. */
module ExperimentArgsProperties {
  import opened ExperimentArgs

  lemma ThenNothing(a: Derived)
    ensures Then(a, Nothing) == a
  {
    assert a.arguments + [] == a.arguments && a.warnings + [] == a.warnings;
  }

  /** A function's parameters other than `self` and `cls` each become either an option, when the
      annotation is supported, or a warning naming the annotation otherwise; nothing else is added. */
  lemma {:induction false} FunctionArguments(rule: Rule, ps: seq<Param>, prefix: string)
    ensures forall a :: a in FunctionDerived(rule, ps, prefix).arguments <==>
              exists p :: p in ps && Counted(p) && Supported(rule, p.annotation) && a == ArgumentFor(p, prefix)
    ensures forall w :: w in FunctionDerived(rule, ps, prefix).warnings <==>
              exists p :: p in ps && Counted(p) && !Supported(rule, p.annotation) && w == WarningFor(rule, p.annotation)
  {
    if |ps| > 0 {
      var front := ps[..|ps| - 1];
      var p := ps[|ps| - 1];
      FunctionArguments(rule, front, prefix);
      assert ps == front + [p];
      assert forall q :: q in ps <==> q in front || q == p;
    }
  }

  /** The option of a parameter is named `--<prefix>__<name>`; it takes `nargs="+"` exactly for a
      generic annotation, and is required exactly when the parameter has no default. */
  lemma ArgumentShape(p: Param, prefix: string)
    requires !p.annotation.Unsupported?
    ensures var a := ArgumentFor(p, prefix);
            && a.flag == "--" + prefix + "__" + p.name
            && (a.many <==> p.annotation.Generic?)
            && (a.required <==> !p.hasDefault)
            && a.argType == (if p.annotation.Generic? then p.annotation.element else p.annotation)
  {
  }

  /** As written, a parameter annotated `Iterable[T]` gets no option, only a warning, where the
      listed origins promise an option of type `T` taking one or more values. */
  lemma IterableParamWarns(p: Param, prefix: string, str: Annotation -> string)
    requires Counted(p) && p.annotation.Generic? && p.annotation.origin == IterableOrigin
    ensures ParamDerived(AsWritten(str), p, prefix) == Derived([], [UnsupportedMessage(str(p.annotation))])
    ensures ParamDerived(Intended, p, prefix)
            == Derived([Argument(Flag(prefix, p.name), p.annotation.element, true, !p.hasDefault)], [])
  {
  }

  /** Every other parameter is treated as intended. */
  lemma AsWrittenElsewhere(p: Param, prefix: string, str: Annotation -> string)
    requires !(p.annotation.Generic? && p.annotation.origin == IterableOrigin)
    ensures ParamDerived(AsWritten(str), p, prefix) == ParamDerived(Intended, p, prefix)
  {
  }

  /** No counted parameter of the list is annotated `Iterable[T]`. */
  predicate NoIterableParams(ps: seq<Param>) {
    forall p :: p in ps && Counted(p) ==> !(p.annotation.Generic? && p.annotation.origin == IterableOrigin)
  }

  /** No class of the tree (the class and its bases, transitively) has such a parameter. */
  predicate NoIterableClass(c: PyClass)
    decreases c
  {
    NoIterableParams(c.initParams) && forall b :: b in c.bases ==> NoIterableClass(b)
  }

  /** No operator class of the pipeline tree has such a parameter. */
  predicate NoIterablePipeline(items: seq<PipelineItem>)
    decreases items
  {
    forall i :: 0 <= i < |items| ==>
      match items[i]
      case Pipe(_, operator) => NoIterableClass(operator)
      case Nested(inner) => NoIterablePipeline(inner)
  }

  lemma {:induction false} FunctionAgrees(ps: seq<Param>, prefix: string, str: Annotation -> string)
    requires NoIterableParams(ps)
    ensures FunctionDerived(AsWritten(str), ps, prefix) == FunctionDerived(Intended, ps, prefix)
    decreases |ps|
  {
    if |ps| > 0 {
      assert ps[|ps| - 1] in ps;
      assert forall p :: p in ps[..|ps| - 1] ==> p in ps;
      FunctionAgrees(ps[..|ps| - 1], prefix, str);
      if Counted(ps[|ps| - 1]) {
        AsWrittenElsewhere(ps[|ps| - 1], prefix, str);
      }
    }
  }

  lemma {:induction false} ClassAgrees(c: PyClass, prefix: string, excluded: seq<PyClass>, str: Annotation -> string)
    requires NoIterableClass(c)
    ensures ClassDerived(AsWritten(str), c, prefix, excluded) == ClassDerived(Intended, c, prefix, excluded)
    decreases c, 2, 0
  {
    FunctionAgrees(c.initParams, prefix, str);
    KwargsAgrees(c, |c.initParams|, prefix, excluded, str);
  }

  lemma {:induction false} KwargsAgrees(c: PyClass, i: nat, prefix: string, excluded: seq<PyClass>, str: Annotation -> string)
    requires i <= |c.initParams| && NoIterableClass(c)
    ensures KwargsDerived(AsWritten(str), c, i, prefix, excluded) == KwargsDerived(Intended, c, i, prefix, excluded)
    decreases c, 1, i
  {
    if i > 0 {
      KwargsAgrees(c, i - 1, prefix, excluded, str);
      BasesAgrees(c, |c.bases|, prefix, excluded, str);
    }
  }

  lemma {:induction false} BasesAgrees(c: PyClass, j: nat, prefix: string, excluded: seq<PyClass>, str: Annotation -> string)
    requires j <= |c.bases| && NoIterableClass(c)
    ensures BasesDerived(AsWritten(str), c, j, prefix, excluded) == BasesDerived(Intended, c, j, prefix, excluded)
    decreases c, 0, j
  {
    if j > 0 {
      BasesAgrees(c, j - 1, prefix, excluded, str);
      assert c.bases[j - 1] in c.bases;
      ClassAgrees(c.bases[j - 1], prefix, excluded, str);
    }
  }

  lemma {:induction false} PipelineAgrees(items: seq<PipelineItem>, str: Annotation -> string)
    requires NoIterablePipeline(items)
    ensures PipelineDerived(AsWritten(str), items) == PipelineDerived(Intended, items)
    decreases items
  {
    if |items| > 0 {
      var front := items[..|items| - 1];
      assert forall i :: 0 <= i < |front| ==> front[i] == items[i];
      PipelineAgrees(front, str);
      match items[|items| - 1]
      case Pipe(name, operator) =>
        ClassAgrees(operator, PipePrefix(name), [], str);
      case Nested(inner) =>
        PipelineAgrees(inner, str);
    }
  }

  /** `_get_cmd_args` as written derives the intended options whenever no counted parameter of the
      model class, its bases or the pipeline's operator classes is annotated `Iterable[T]`. */
  lemma CmdAgrees(modelClass: PyClass, modelBase: PyClass, pipeline: seq<PipelineItem>, str: Annotation -> string)
    requires NoIterableClass(modelClass) && NoIterablePipeline(pipeline)
    ensures CmdDerived(AsWritten(str), modelClass, modelBase, pipeline) == CmdDerived(Intended, modelClass, modelBase, pipeline)
  {
    ClassAgrees(modelClass, ModelPrefix, [modelBase], str);
    PipelineAgrees(pipeline, str);
  }

  /** The smallest experiment that shows the difference: a model whose only parameter is
      `x: Iterable[int]` without a default, and an empty pipeline. As written, the parser gets no
      option and one warning; as intended, it gets `--model__x` taking one or more ints. */
  lemma IterableModelParamWarns(modelBase: PyClass, str: Annotation -> string)
    ensures var x := Param("x", Regular, Generic(IterableOrigin, ScalarType(Scalar.IntType)), false);
            var modelClass := PyClass("IterableModel", [x], []);
            && CmdDerived(AsWritten(str), modelClass, modelBase, []) == Derived([], [UnsupportedMessage(str(x.annotation))])
            && CmdDerived(Intended, modelClass, modelBase, [])
               == Derived([Argument("--model__x", ScalarType(Scalar.IntType), true, true)], [])
  {
    var x := Param("x", Regular, Generic(IterableOrigin, ScalarType(Scalar.IntType)), false);
    var modelClass := PyClass("IterableModel", [x], []);
    assert [x][..0] == [];
    assert KwargsDerived(AsWritten(str), modelClass, 1, ModelPrefix, [modelBase]) == Nothing by {
      assert KwargsDerived(AsWritten(str), modelClass, 0, ModelPrefix, [modelBase]) == Nothing;
    }
    assert KwargsDerived(Intended, modelClass, 1, ModelPrefix, [modelBase]) == Nothing by {
      assert KwargsDerived(Intended, modelClass, 0, ModelPrefix, [modelBase]) == Nothing;
    }
    assert Flag(ModelPrefix, "x") == "--model__x";
  }

  /** `s` begins with `pre`. */
  predicate StartsWith(s: string, pre: string) {
    pre <= s
  }

  lemma StartsWithConcat(pre: string, rest: string, more: string)
    ensures StartsWith(pre + rest + more, pre)
  {
    assert (pre + rest + more)[..|pre|] == pre;
  }

  /** Every option derived for a class, including those of the bases reached through `**kwargs`,
      carries the class's prefix. */
  lemma {:induction false} ClassPrefixed(rule: Rule, c: PyClass, prefix: string, excluded: seq<PyClass>)
    ensures forall a :: a in ClassDerived(rule, c, prefix, excluded).arguments ==> StartsWith(a.flag, "--" + prefix + "__")
    decreases c, 2, 0
  {
    FunctionPrefixed(rule, c.initParams, prefix);
    KwargsPrefixed(rule, c, |c.initParams|, prefix, excluded);
  }

  lemma FunctionPrefixed(rule: Rule, ps: seq<Param>, prefix: string)
    ensures forall a :: a in FunctionDerived(rule, ps, prefix).arguments ==> StartsWith(a.flag, "--" + prefix + "__")
  {
    FunctionArguments(rule, ps, prefix);
    forall a | a in FunctionDerived(rule, ps, prefix).arguments ensures StartsWith(a.flag, "--" + prefix + "__") {
      var p :| p in ps && Counted(p) && Supported(rule, p.annotation) && a == ArgumentFor(p, prefix);
      StartsWithConcat("--" + prefix + "__", p.name, "");
      assert "--" + prefix + "__" + p.name + "" == a.flag;
    }
  }

  lemma {:induction false} KwargsPrefixed(rule: Rule, c: PyClass, i: nat, prefix: string, excluded: seq<PyClass>)
    requires i <= |c.initParams|
    ensures forall a :: a in KwargsDerived(rule, c, i, prefix, excluded).arguments ==> StartsWith(a.flag, "--" + prefix + "__")
    decreases c, 1, i
  {
    if i > 0 {
      KwargsPrefixed(rule, c, i - 1, prefix, excluded);
      BasesPrefixed(rule, c, |c.bases|, prefix, excluded);
    }
  }

  lemma {:induction false} BasesPrefixed(rule: Rule, c: PyClass, j: nat, prefix: string, excluded: seq<PyClass>)
    requires j <= |c.bases|
    ensures forall a :: a in BasesDerived(rule, c, j, prefix, excluded).arguments ==> StartsWith(a.flag, "--" + prefix + "__")
    decreases c, 0, j
  {
    if j > 0 {
      BasesPrefixed(rule, c, j - 1, prefix, excluded);
      ClassPrefixed(rule, c.bases[j - 1], prefix, excluded);
    }
  }

  /** Every option derived for a pipeline starts with `--pipeline__`. */
  lemma {:induction false} PipelinePrefixed(rule: Rule, items: seq<PipelineItem>)
    ensures forall a :: a in PipelineDerived(rule, items).arguments ==> StartsWith(a.flag, "--pipeline__")
    decreases items
  {
    if |items| > 0 {
      var last := items[|items| - 1];
      PipelinePrefixed(rule, items[..|items| - 1]);
      match last
      case Pipe(name, operator) =>
        ClassPrefixed(rule, operator, PipePrefix(name), []);
        forall a | a in ClassDerived(rule, operator, PipePrefix(name), []).arguments ensures StartsWith(a.flag, "--pipeline__") {
          assert ("--" + PipePrefix(name) + "__")[..|"--pipeline__"|] == "--pipeline__";
        }
      case Nested(inner) =>
        PipelinePrefixed(rule, inner);
    }
  }

  /** The model's options come first, all under `--model__`; every later option belongs to the
      pipeline. */
  lemma ModelArgumentsFirst(rule: Rule, modelClass: PyClass, modelBase: PyClass, pipeline: seq<PipelineItem>)
    ensures var args := CmdDerived(rule, modelClass, modelBase, pipeline).arguments;
            var k := |ClassDerived(rule, modelClass, ModelPrefix, [modelBase]).arguments|;
            forall i :: 0 <= i < |args| ==>
              (i < k ==> StartsWith(args[i].flag, "--model__")) && (k <= i ==> StartsWith(args[i].flag, "--pipeline__"))
  {
    var m: seq<Argument> := ClassDerived(rule, modelClass, ModelPrefix, [modelBase]).arguments;
    var q: seq<Argument> := PipelineDerived(rule, pipeline).arguments;
    ClassPrefixed(rule, modelClass, ModelPrefix, [modelBase]);
    PipelinePrefixed(rule, pipeline);
    forall i | 0 <= i < |m + q|
      ensures (i < |m| ==> StartsWith((m + q)[i].flag, "--model__")) && (|m| <= i ==> StartsWith((m + q)[i].flag, "--pipeline__"))
    {
      if i < |m| {
        assert (m + q)[i] == m[i] && m[i] in m;
      } else {
        assert (m + q)[i] == q[i - |m|] && q[i - |m|] in q;
      }
    }
  }

  /** The pipes of a pipeline tree, depth first, in declaration order. */
  function Pipes(items: seq<PipelineItem>): seq<(string, PyClass)>
    decreases items
  {
    if |items| == 0 then []
    else
      Pipes(items[..|items| - 1])
      + match items[|items| - 1]
        case Pipe(name, operator) => [(name, operator)]
        case Nested(inner) => Pipes(inner)
  }

  /** Each pipe of a flat list, under its own name. */
  function PipesDerived(rule: Rule, pipes: seq<(string, PyClass)>): Derived
  {
    if |pipes| == 0 then Nothing
    else Then(PipesDerived(rule, pipes[..|pipes| - 1]), ClassDerived(rule, pipes[|pipes| - 1].1, PipePrefix(pipes[|pipes| - 1].0), []))
  }

  lemma {:induction false} PipesDerivedAppend(rule: Rule, a: seq<(string, PyClass)>, b: seq<(string, PyClass)>)
    ensures PipesDerived(rule, a + b) == Then(PipesDerived(rule, a), PipesDerived(rule, b))
  {
    if |b| == 0 {
      assert a + b == a;
      ThenNothing(PipesDerived(rule, a));
    } else {
      var front := b[..|b| - 1];
      assert (a + b)[..|a + b| - 1] == a + front;
      PipesDerivedAppend(rule, a, front);
      ThenAssoc(PipesDerived(rule, a), PipesDerived(rule, front), ClassDerived(rule, b[|b| - 1].1, PipePrefix(b[|b| - 1].0), []));
    }
  }

  /** Nesting is invisible: walking the tree derives what one flat pass over its pipes, depth
      first, derives, each pipe under `pipeline__<its own name>` at whatever depth it sits. */
  lemma {:induction false} PipelineFlattens(rule: Rule, items: seq<PipelineItem>)
    ensures PipelineDerived(rule, items) == PipesDerived(rule, Pipes(items))
    decreases items
  {
    if |items| > 0 {
      var front := items[..|items| - 1];
      var last := items[|items| - 1];
      PipelineFlattens(rule, front);
      match last
      case Pipe(name, operator) =>
        PipesDerivedAppend(rule, Pipes(front), [(name, operator)]);
        NothingThen(ClassDerived(rule, operator, PipePrefix(name), []));
      case Nested(inner) =>
        PipelineFlattens(rule, inner);
        PipesDerivedAppend(rule, Pipes(front), Pipes(inner));
    }
  }

  lemma {:induction false} NoKwargsVisits(rule: Rule, c: PyClass, i: nat, prefix: string, excluded: seq<PyClass>)
    requires i <= |c.initParams|
    requires (forall k :: 0 <= k < |c.initParams| ==> c.initParams[k].kind != VarKeyword)
             || (forall b :: b in c.bases ==> b in excluded)
    ensures KwargsDerived(rule, c, i, prefix, excluded) == Nothing
  {
    if i > 0 {
      NoKwargsVisits(rule, c, i - 1, prefix, excluded);
      if c.initParams[i - 1].kind == VarKeyword {
        ExcludedBases(rule, c, |c.bases|, prefix, excluded);
      }
      ThenNothing(Nothing);
    }
  }

  lemma {:induction false} ExcludedBases(rule: Rule, c: PyClass, j: nat, prefix: string, excluded: seq<PyClass>)
    requires j <= |c.bases| && forall b :: b in c.bases ==> b in excluded
    ensures BasesDerived(rule, c, j, prefix, excluded) == Nothing
  {
    if j > 0 {
      ExcludedBases(rule, c, j - 1, prefix, excluded);
      assert c.bases[j - 1] in c.bases;
      ThenNothing(Nothing);
    }
  }

  /** Base classes are visited only through a `**kwargs` parameter: without one, or when every
      base is excluded (the model's `Model` base), a class derives exactly its own parameters. */
  lemma BasesOnlyThroughKwargs(rule: Rule, c: PyClass, prefix: string, excluded: seq<PyClass>)
    requires (forall k :: 0 <= k < |c.initParams| ==> c.initParams[k].kind != VarKeyword)
             || (forall b :: b in c.bases ==> b in excluded)
    ensures ClassDerived(rule, c, prefix, excluded) == FunctionDerived(rule, c.initParams, prefix)
  {
    NoKwargsVisits(rule, c, |c.initParams|, prefix, excluded);
    ThenNothing(FunctionDerived(rule, c.initParams, prefix));
  }
}
