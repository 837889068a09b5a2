/** `make_wheel`, the function-style wheel builder: the requirements string written into the
    setup template, as written and as evidently intended. Its default output directory is
    `Packaging.OutputWheelFile`. */
module Wheel {
  import opened Results
  import opened Text
  import opened Packaging
  import WheelBuilding

  /** The requirements string as `make_wheel` computes it: with no explicit libraries, the raw
      requirement lines must be non-empty, and the pinned ones are joined and then stripped of
      newlines; explicit libraries must be non-empty and are joined as they are. The result is the
      builder's pinned, stripped list joined, but checked for emptiness before the filter. */
  function RequirementsAsWritten(libraries: Option<seq<string>>, requirementLines: seq<string>): (r: Result<string, string>)
    ensures r.Err? <==> if libraries.Some? then |libraries.value| == 0 else |requirementLines| == 0
    ensures r.Err? ==> r.error == NoDependencyMessage
    ensures r.Ok? ==> r.value == Text.Join(if libraries.Some? then libraries.value else StripAll(Pinned(requirementLines)), Separator)
  {
    match libraries
    case None =>
      if |requirementLines| == 0 then Err(NoDependencyMessage)
      else
        StripJoin(Pinned(requirementLines));
        Ok(StripNewlines(Text.Join(Pinned(requirementLines), Separator)))
    case Some(libs) =>
      if |libs| == 0 then Err(NoDependencyMessage) else Ok(Text.Join(libs, Separator))
  }

  /** The setup file `make_wheel` writes as it stands: the builder's setup file for the given
      libraries or the pinned, stripped requirement lines, which may be none at all. */
  function MakeWheelSetupAsWritten(template: string, libraries: Option<seq<string>>, requirementLines: seq<string>,
                                   modelName: string, version: string): (r: Result<string, string>)
    ensures r.Err? <==> if libraries.Some? then |libraries.value| == 0 else |requirementLines| == 0
    ensures r.Ok? ==> r.value == WheelBuilding.SetupFile(template, if libraries.Some? then libraries.value else StripAll(Pinned(requirementLines)),
                                                         modelName, version)
  {
    match RequirementsAsWritten(libraries, requirementLines)
    case Err(e) => Err(e)
    case Ok(requirements) => Ok(FillTemplate(template, requirements, modelName, version))
  }

  /** The emptiness check is made on the raw lines, before filtering: a requirements file whose
      only line is unpinned passes it and yields an empty requirements string, where `WheelBuilder`
      reports the missing dependency. */
  lemma UnpinnedFilePasses(template: string, modelName: string, version: string)
    ensures RequirementsAsWritten(None, ["numpy\n"]) == Ok("")
    ensures MakeWheelSetupAsWritten(template, None, ["numpy\n"], modelName, version) == Ok(FillTemplate(template, "", modelName, version))
    ensures MakeWheelSetup(template, None, ["numpy\n"], modelName, version) == Err(NoDependencyMessage)
    ensures WheelBuilding.Libraries(None, ["numpy\n"]) == Err(NoDependencyMessage)
  {
    FirstCharAbsent("numpy\n", "==");
    assert Pinned(["numpy\n"]) == [];
  }

  /** The requirements string as evidently intended: the emptiness check made after filtering, as
      `WheelBuilder` does. */
  function Requirements(libraries: Option<seq<string>>, requirementLines: seq<string>): (r: Result<string, string>)
    ensures r.Err? <==> WheelBuilding.Libraries(libraries, requirementLines).Err?
    ensures r.Err? ==> r.error == NoDependencyMessage
    ensures r.Ok? ==> r.value == Text.Join(WheelBuilding.Libraries(libraries, requirementLines).value, Separator)
  {
    match libraries
    case None =>
      if |Pinned(requirementLines)| == 0 then Err(NoDependencyMessage)
      else
        StripJoin(Pinned(requirementLines));
        Ok(StripNewlines(Text.Join(Pinned(requirementLines), Separator)))
    case Some(libs) =>
      if |libs| == 0 then Err(NoDependencyMessage) else Ok(Text.Join(libs, Separator))
  }

  /** The two agree, and so do the setup files, whenever a library is given or some requirement
      line is pinned. */
  lemma AsWrittenAgrees(libraries: Option<seq<string>>, requirementLines: seq<string>)
    requires libraries.Some? || exists l :: l in requirementLines && Contains(l, "==")
    ensures RequirementsAsWritten(libraries, requirementLines) == Requirements(libraries, requirementLines)
    ensures forall template, modelName, version ::
              MakeWheelSetupAsWritten(template, libraries, requirementLines, modelName, version)
              == MakeWheelSetup(template, libraries, requirementLines, modelName, version)
  {
    if libraries.None? {
      var l :| l in requirementLines && Contains(l, "==");
      assert l in Pinned(requirementLines);
    }
  }

  /** The setup file `make_wheel` evidently intends to write, given the setup template: the one
      `WheelBuilder.build` writes when no extension changes the library list. */
  function MakeWheelSetup(template: string, libraries: Option<seq<string>>, requirementLines: seq<string>,
                          modelName: string, version: string): (r: Result<string, string>)
    ensures r.Err? <==> WheelBuilding.Libraries(libraries, requirementLines).Err?
    ensures r.Ok? ==> r.value == WheelBuilding.SetupFile(template, WheelBuilding.Libraries(libraries, requirementLines).value,
                                                         modelName, version)
  {
    match Requirements(libraries, requirementLines)
    case Err(e) => Err(e)
    case Ok(requirements) => Ok(FillTemplate(template, requirements, modelName, version))
  }
}
