/** `WheelBuilder`: turns an experiment's output folder into a wheel. Modelled are the checks and
    defaults made on construction, the extension validation, and the string part of `build`: the
    dependency list and the filled-in setup file. File system work and the `setup.py` run are
    not. */
module WheelBuilding {
  import opened Results
  import opened Dicts
  import opened Paths
  import opened Packaging

  /** A `WheelExtension`: its name, the helper files it adds with the function names each one
      provides, and the libraries it needs. */
  datatype Extension = Extension(name: string, functionality: seq<(Path, seq<string>)>, libraries: seq<string>)

  /** The extension every wheel gets; `moduleDir` stands for the directory of builder.py. */
  function BaseExtension(moduleDir: Path): Extension {
    Extension("base", [(Paths.Join(Paths.Join(moduleDir, "helpers"), "load_model.py"), ["load_model"])], ["pype.base"])
  }

  /** `extensions`, defaulting to `[]`, with `base` appended when it is not already there. */
  function WithBase(extensions: Option<seq<Extension>>, base: Extension): (r: seq<Extension>)
    ensures base in r
    ensures extensions.Some? ==> extensions.value <= r
    ensures forall e :: e in r ==> e == base || (extensions.Some? && e in extensions.value)
    ensures extensions.Some? && base in extensions.value ==> r == extensions.value
    ensures |r| <= 1 + (if extensions.Some? then |extensions.value| else 0)
  {
    var given := match extensions case Some(es) => es case None => [];
    if base in given then given else given + [base]
  }

  function DuplicateNameMessage(name: string): string {
    name + " is a duplicated extension name, this is not allowed."
  }

  function DuplicateFunctionMessage(function_name: string, extension: string): string {
    function_name + " is a duplicated function name from " + extension + ", this is not allowed."
  }

  function Names(exts: seq<Extension>): (r: seq<string>)
    ensures |r| == |exts| && forall i :: 0 <= i < |exts| ==> r[i] == exts[i].name
  {
    if |exts| == 0 then [] else [exts[0].name] + Names(exts[1..])
  }

  /** The function names of one extension, file by file. */
  function Imports(functionality: seq<(Path, seq<string>)>): seq<string> {
    if |functionality| == 0 then [] else functionality[0].1 + Imports(functionality[1..])
  }

  /** The function names of all extensions, extension by extension. */
  function AllImports(exts: seq<Extension>): seq<string> {
    if |exts| == 0 then [] else Imports(exts[0].functionality) + AllImports(exts[1..])
  }

  /** The innermost loop of `_validate_extensions`: each function name must be new. */
  function ScanImports(imports: seq<string>, extension: string, seen: set<string>): Result<set<string>, string> {
    if |imports| == 0 then Ok(seen)
    else if imports[0] in seen then Err(DuplicateFunctionMessage(imports[0], extension))
    else ScanImports(imports[1..], extension, seen + {imports[0]})
  }

  /** The loop over the `(file, imports)` pairs of one extension. */
  function ScanFunctionality(functionality: seq<(Path, seq<string>)>, extension: string, seen: set<string>)
    : Result<set<string>, string>
  {
    if |functionality| == 0 then Ok(seen)
    else
      match ScanImports(functionality[0].1, extension, seen)
      case Err(e) => Err(e)
      case Ok(seen') => ScanFunctionality(functionality[1..], extension, seen')
  }

  /** The outer loop, given the extension names and function names seen so far. */
  function Scan(exts: seq<Extension>, names: set<string>, seen: set<string>): Outcome<string> {
    if |exts| == 0 then Pass
    else if exts[0].name in names then Fail(DuplicateNameMessage(exts[0].name))
    else
      match ScanFunctionality(exts[0].functionality, exts[0].name, seen)
      case Err(e) => Fail(e)
      case Ok(seen') => Scan(exts[1..], names + {exts[0].name}, seen')
  }

  /** `_validate_extensions`. */
  function Validate(exts: seq<Extension>): Outcome<string> {
    Scan(exts, {}, {})
  }

  /** `_validate_extensions` as the nested loops over extensions, files and function names. */
  method ValidateExtensions(exts: seq<Extension>) returns (r: Outcome<string>)
    ensures r == Validate(exts)
  {
    var names: set<string> := {};
    var functionNames: set<string> := {};
    var i := 0;
    while i < |exts|
      invariant 0 <= i <= |exts|
      invariant Scan(exts[i..], names, functionNames) == Validate(exts)
    {
      var extension := exts[i];
      if extension.name in names {
        return Fail(DuplicateNameMessage(extension.name));
      }
      names := names + {extension.name};
      var scanned := CheckFunctionality(extension.functionality, extension.name, functionNames);
      if scanned.Err? {
        return Fail(scanned.error);
      }
      functionNames := scanned.value;
      assert exts[i..][1..] == exts[i + 1..];
      i := i + 1;
    }
    return Pass;
  }

  /** The two inner loops for one extension. */
  method CheckFunctionality(functionality: seq<(Path, seq<string>)>, extension: string, seen: set<string>)
    returns (r: Result<set<string>, string>)
    ensures r == ScanFunctionality(functionality, extension, seen)
  {
    var functionNames := seen;
    var k := 0;
    while k < |functionality|
      invariant 0 <= k <= |functionality|
      invariant ScanFunctionality(functionality[k..], extension, functionNames) == ScanFunctionality(functionality, extension, seen)
    {
      var imports := functionality[k].1;
      ghost var before := functionNames;
      var n := 0;
      while n < |imports|
        invariant 0 <= n <= |imports|
        invariant ScanImports(imports[n..], extension, functionNames) == ScanImports(imports, extension, before)
      {
        if imports[n] in functionNames {
          return Err(DuplicateFunctionMessage(imports[n], extension));
        }
        functionNames := functionNames + {imports[n]};
        assert imports[n..][1..] == imports[n + 1..];
        n := n + 1;
      }
      assert functionality[k..][1..] == functionality[k + 1..];
      k := k + 1;
    }
    return Ok(functionNames);
  }

  /** The scan of function names passes exactly when they are distinct and new; it then adds them
      all to the names seen. */
  lemma {:induction false} ScanImportsPass(imports: seq<string>, extension: string, seen: set<string>)
    ensures ScanImports(imports, extension, seen).Ok?
            <==> Distinct(imports) && forall x :: x in imports ==> x !in seen
    ensures ScanImports(imports, extension, seen).Ok?
            ==> ScanImports(imports, extension, seen).value == seen + set x | x in imports
  {
    if |imports| > 0 {
      ScanImportsPass(imports[1..], extension, seen + {imports[0]});
      assert imports == [imports[0]] + imports[1..];
      DistinctCons(imports[0], imports[1..]);
    }
  }

  lemma {:induction false} ScanFunctionalityPass(functionality: seq<(Path, seq<string>)>, extension: string, seen: set<string>)
    ensures ScanFunctionality(functionality, extension, seen).Ok?
            <==> Distinct(Imports(functionality)) && forall x :: x in Imports(functionality) ==> x !in seen
    ensures ScanFunctionality(functionality, extension, seen).Ok?
            ==> ScanFunctionality(functionality, extension, seen).value == seen + set x | x in Imports(functionality)
  {
    if |functionality| > 0 {
      var first := functionality[0].1;
      ScanImportsPass(first, extension, seen);
      DistinctAppend(first, Imports(functionality[1..]));
      if ScanImports(first, extension, seen).Ok? {
        ScanFunctionalityPass(functionality[1..], extension, seen + set x | x in first);
      }
    }
  }

  lemma {:induction false} ScanPass(exts: seq<Extension>, names: set<string>, seen: set<string>)
    ensures Scan(exts, names, seen).Pass?
            <==> && Distinct(Names(exts)) && (forall n :: n in Names(exts) ==> n !in names)
                 && Distinct(AllImports(exts)) && (forall x :: x in AllImports(exts) ==> x !in seen)
  {
    if |exts| > 0 {
      var e := exts[0];
      assert Names(exts) == [e.name] + Names(exts[1..]);
      DistinctCons(e.name, Names(exts[1..]));
      ScanFunctionalityPass(e.functionality, e.name, seen);
      DistinctAppend(Imports(e.functionality), AllImports(exts[1..]));
      if e.name !in names && ScanFunctionality(e.functionality, e.name, seen).Ok? {
        ScanPass(exts[1..], names + {e.name}, seen + set x | x in Imports(e.functionality));
      }
    }
  }

  /** Validation passes exactly when no two extensions share a name and no function name occurs
      twice over all extensions' files, within one extension or across two. */
  lemma ValidatePass(exts: seq<Extension>)
    ensures Validate(exts).Pass? <==> Distinct(Names(exts)) && Distinct(AllImports(exts))
  {
    ScanPass(exts, {}, {});
  }

  /** The dependency list of `build`: the given libraries, or else the pinned requirement lines
      without their newlines; it must not be empty. */
  function Libraries(libraries: Option<seq<string>>, requirementLines: seq<string>): (r: Result<seq<string>, string>)
    ensures libraries.Some? ==> (r.Ok? <==> |libraries.value| > 0) && (r.Ok? ==> r.value == libraries.value)
    ensures libraries.None? ==> (r.Ok? <==> exists l :: l in requirementLines && Text.Contains(l, "=="))
    ensures libraries.None? && r.Ok? ==> r.value == StripAll(Pinned(requirementLines))
    ensures r.Ok? ==> forall l :: l in r.value ==> '\n' !in l || libraries.Some?
    ensures r.Err? ==> r.error == NoDependencyMessage
  {
    var libs := match libraries case Some(ls) => ls case None => StripAll(Pinned(requirementLines));
    assert |Pinned(requirementLines)| > 0 ==> Pinned(requirementLines)[0] in Pinned(requirementLines);
    if |libs| == 0 then Err(NoDependencyMessage) else Ok(libs)
  }

  /** The setup file `build` writes: the template with the libraries joined into
      `install_requires`, then the package name, then the version. */
  function SetupFile(template: string, libraries: seq<string>, modelName: string, version: string): string {
    FillTemplate(template, Text.Join(libraries, Separator), modelName, version)
  }

  /** The library list after `extension.extend(model_name, libraries, package_dir)` has run for
      each of `exts` in order; `extend` gives the list one call leaves behind. */
  function Extended(exts: seq<Extension>, modelName: string, libraries: seq<string>,
                    extend: (Extension, string, seq<string>) -> seq<string>): seq<string>
    decreases |exts|
  {
    if |exts| == 0 then libraries
    else extend(exts[|exts| - 1], modelName, Extended(exts[..|exts| - 1], modelName, libraries, extend))
  }

  /** Extensions that leave the list alone leave `install_requires` as the checked libraries. */
  lemma {:induction false} ExtendedUnchanged(exts: seq<Extension>, modelName: string, libraries: seq<string>,
                                             extend: (Extension, string, seq<string>) -> seq<string>)
    requires forall e, l :: e in exts ==> extend(e, modelName, l) == l
    ensures Extended(exts, modelName, libraries, extend) == libraries
    decreases |exts|
  {
    if |exts| > 0 {
      assert forall e :: e in exts[..|exts| - 1] ==> e in exts;
      ExtendedUnchanged(exts[..|exts| - 1], modelName, libraries, extend);
      assert exts[|exts| - 1] in exts;
    }
  }

  /** The libraries each extension declares, in extension order. */
  function DeclaredLibraries(exts: seq<Extension>): seq<string>
    decreases |exts|
  {
    if |exts| == 0 then [] else DeclaredLibraries(exts[..|exts| - 1]) + exts[|exts| - 1].libraries
  }

  /** Extensions that append their own `libraries` add them after the checked libraries, in
      extension order; so the base extension's "pype.base" is always required. */
  lemma {:induction false} ExtendedAppends(exts: seq<Extension>, modelName: string, libraries: seq<string>,
                                           extend: (Extension, string, seq<string>) -> seq<string>)
    requires forall e, l :: e in exts ==> extend(e, modelName, l) == l + e.libraries
    ensures Extended(exts, modelName, libraries, extend) == libraries + DeclaredLibraries(exts)
    ensures forall e, x :: e in exts && x in e.libraries ==> x in Extended(exts, modelName, libraries, extend)
    decreases |exts|
  {
    if |exts| > 0 {
      var front := exts[..|exts| - 1];
      var last := exts[|exts| - 1];
      assert forall e :: e in front ==> e in exts;
      assert last in exts;
      ExtendedAppends(front, modelName, libraries, extend);
      assert libraries + DeclaredLibraries(front) + last.libraries == libraries + (DeclaredLibraries(front) + last.libraries);
      forall e, x | e in exts && x in e.libraries
        ensures x in Extended(exts, modelName, libraries, extend)
      {
        if e != last {
          assert exists k :: 0 <= k < |front| && front[k] == e by {
            var k :| 0 <= k < |exts| && exts[k] == e;
            assert front[k] == e;
          }
        }
      }
    }
  }

  class WheelBuilder {
    const modelFolder: Path
    const modelName: string
    const version: string
    var outputWheelFile: PathArg
    const libraries: Option<seq<string>>
    var extensions: seq<Extension>

    /** The dataclass fields after `__post_init__`, which requires the extensions to validate. */
    constructor (modelFolder: Path, modelName: string, version: string, outputWheelFile: Option<PathArg>,
                 libraries: Option<seq<string>>, extensions: Option<seq<Extension>>, cwd: Path, moduleDir: Path)
      requires Validate(WithBase(extensions, BaseExtension(moduleDir))).Pass?
      ensures this.modelFolder == modelFolder && this.modelName == modelName && this.version == version
      ensures this.libraries == libraries
      ensures this.outputWheelFile == OutputWheelFile(outputWheelFile, cwd)
      ensures this.extensions == WithBase(extensions, BaseExtension(moduleDir))
    {
      this.modelFolder := modelFolder;
      this.modelName := modelName;
      this.version := version;
      this.libraries := libraries;
      this.outputWheelFile := OutputWheelFile(outputWheelFile, cwd);
      this.extensions := WithBase(extensions, BaseExtension(moduleDir));
    }

    /** `WheelBuilder(...)`: the defaults, then the extension validation, which raises on a
        duplicate. */
    static method New(modelFolder: Path, modelName: string, version: string, outputWheelFile: Option<PathArg>,
                      libraries: Option<seq<string>>, extensions: Option<seq<Extension>>, cwd: Path, moduleDir: Path)
      returns (r: Result<WheelBuilder, string>)
      ensures var exts := WithBase(extensions, BaseExtension(moduleDir));
              && (r.Ok? <==> Validate(exts).Pass?)
              && (r.Err? ==> Validate(exts) == Fail(r.error))
              && (r.Ok? ==> fresh(r.value) && r.value.extensions == exts
                            && r.value.outputWheelFile == OutputWheelFile(outputWheelFile, cwd)
                            && r.value.modelName == modelName && r.value.version == version
                            && r.value.libraries == libraries && r.value.modelFolder == modelFolder)
    {
      var exts := WithBase(extensions, BaseExtension(moduleDir));
      var validated := ValidateExtensions(exts);
      if validated.Fail? {
        return Err(validated.error);
      }
      var b := new WheelBuilder(modelFolder, modelName, version, outputWheelFile, libraries, extensions, cwd, moduleDir);
      return Ok(b);
    }

    /** The string part of `build`, given the lines of the experiment's requirements file, the
        setup template and what each extension's `extend` does to the library list: the setup
        file's text, or the missing-dependency error, raised before any extension runs. */
    method Build(requirementLines: seq<string>, template: string, extend: (Extension, string, seq<string>) -> seq<string>)
      returns (r: Result<string, string>)
      ensures r.Err? <==> Libraries(libraries, requirementLines).Err?
      ensures r.Err? ==> r.error == NoDependencyMessage
      ensures r.Ok? ==> r.value == SetupFile(template, Extended(extensions, modelName, Libraries(libraries, requirementLines).value, extend),
                                             modelName, version)
    {
      var libs: seq<string>;
      if libraries.None? {
        libs := StripAll(Pinned(requirementLines));
      } else {
        libs := libraries.value;
      }
      if |libs| == 0 {
        return Err(NoDependencyMessage);
      }
      ghost var checked := libs;
      var i := 0;
      while i < |extensions|
        invariant 0 <= i <= |extensions|
        invariant libs == Extended(extensions[..i], modelName, checked, extend)
      {
        assert extensions[..i + 1][..i] == extensions[..i];
        libs := extend(extensions[i], modelName, libs);
        i := i + 1;
      }
      assert extensions[..i] == extensions;
      var requirements := Text.Join(libs, Separator);
      var formatted := FillTemplate(template, requirements, modelName, version);
      return Ok(formatted);
    }
  }
}
