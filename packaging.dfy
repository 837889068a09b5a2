/** The string rules shared by both ways of building a model wheel: which requirement lines count
    as dependencies, how the dependency list is written into `install_requires`, how the setup
    template is filled in, and where the wheel goes by default. */
module Packaging {
  import opened Results
  import opened Text
  import opened Paths

  /** The separator of `'", "'.join(...)`: the template wraps the result in one more pair of
      quotes, giving `"a==1", "b==2"`. */
  const Separator := "\", \""

  const NoDependencyMessage := "Using pype, it is assumend there is at least 1 dependency"

  const InstallRequiresField := "{install_requires}"
  const PackageNameField := "{package_name}"
  const VersionField := "{version}"

  const DefaultOutputName := "wheel_output"

  /** `filter(lambda x: "==" in x, lines)`: the pinned requirement lines, in file order. */
  function Pinned(lines: seq<string>): (r: seq<string>)
    ensures forall l :: l in r <==> l in lines && Contains(l, "==")
    ensures |r| <= |lines|
  {
    if |lines| == 0 then []
    else (if Contains(lines[0], "==") then [lines[0]] else []) + Pinned(lines[1..])
  }

  /** `s.replace("\n", "")`. */
  function StripNewlines(s: string): (r: string)
    ensures '\n' !in r
  {
    NoNewlineLeft(s);
    ReplaceAll(s, "\n", "")
  }

  lemma {:induction false} NoNewlineLeft(s: string)
    ensures '\n' !in ReplaceAll(s, "\n", "")
  {
    if |s| > 0 {
      NoNewlineLeft(s[1..]);
      if "\n" <= s {
        assert s[1..] == s[|"\n"|..];
      }
    }
  }

  /** `list(map(lambda x: x.replace("\n", ""), lines))`. */
  function StripAll(lines: seq<string>): (r: seq<string>)
    ensures |r| == |lines| && forall i :: 0 <= i < |lines| ==> r[i] == StripNewlines(lines[i])
  {
    if |lines| == 0 then [] else [StripNewlines(lines[0])] + StripAll(lines[1..])
  }

  /** The three chained `replace` calls on the setup template, in the source's order. */
  function FillTemplate(template: string, requirements: string, packageName: string, version: string): string {
    ReplaceAll(ReplaceAll(ReplaceAll(template, InstallRequiresField, requirements), PackageNameField, packageName),
               VersionField, version)
  }

  /** `output_wheel_file`, defaulting to `<cwd>/wheel_output`; `cwd` stands for
      `Path("").parent.absolute()`. */
  function OutputWheelFile(output: Option<PathArg>, cwd: Path): (r: PathArg)
    ensures output.Some? ==> r == output.value
    ensures output.None? ==> r == PathValue(Path(cwd.root, cwd.parts + [DefaultOutputName]))
  {
    match output
    case Some(o) => o
    case None => PathValue(Paths.Join(cwd, DefaultOutputName))
  }

  /** Filtering distributes over concatenation, so the pinned lines keep their file order. */
  lemma {:induction false} PinnedAppend(a: seq<string>, b: seq<string>)
    ensures Pinned(a + b) == Pinned(a) + Pinned(b)
  {
    if |a| > 0 {
      assert (a + b)[1..] == a[1..] + b;
      PinnedAppend(a[1..], b);
    } else {
      assert a + b == b;
    }
  }

  /** The separator has no newline, so stripping newlines from the joined string is joining the
      stripped lines. */
  lemma {:induction false} StripJoin(items: seq<string>)
    ensures StripNewlines(Text.Join(items, Separator)) == Text.Join(StripAll(items), Separator)
  {
    if |items| == 1 {
    } else if |items| > 1 {
      var rest := Text.Join(items[1..], Separator);
      StripJoin(items[1..]);
      ReplaceCharConcat(items[0] + Separator, rest, "\n", "");
      ReplaceCharConcat(items[0], Separator, "\n", "");
      ContainsChar(Separator, '\n');
      ReplaceAbsent(Separator, "\n", "");
      assert StripAll(items)[1..] == StripAll(items[1..]);
    }
  }

  /** A string shorter than the pattern does not contain it. */
  lemma {:induction false} ShortNotContains(s: string, pat: string)
    requires |s| < |pat|
    ensures !Contains(s, pat)
  {
    if |s| > 0 {
      ShortNotContains(s[1..], pat);
    }
  }

  /** Text free of `{` is left alone by every placeholder. */
  lemma BraceFree(s: string, pat: string, rep: string)
    requires |pat| > 0 && pat[0] == '{' && '{' !in s
    ensures ReplaceAll(s, pat, rep) == s
  {
    ReplaceSkips(s, "", pat, rep);
    assert s + "" == s;
  }

  /** A template with one `{install_requires}` and no other brace gets the requirements in its
      place, whatever the later replacements look for. */
  lemma FillRequirements(pre: string, post: string, requirements: string, packageName: string, version: string)
    requires '{' !in pre && '{' !in post && '{' !in requirements
    ensures FillTemplate(pre + InstallRequiresField + post, requirements, packageName, version)
            == pre + requirements + post
  {
    ReplaceSkips(pre, InstallRequiresField + post, InstallRequiresField, requirements);
    assert pre + InstallRequiresField + post == pre + (InstallRequiresField + post);
    ReplaceAtFront(post, InstallRequiresField, requirements);
    BraceFree(post, InstallRequiresField, requirements);
    var s := pre + requirements + post;
    assert pre + (requirements + post) == s;
    BraceFree(s, PackageNameField, packageName);
    BraceFree(s, VersionField, version);
  }

  /** The replacements are applied one after the other to the whole text: a requirements string
      that itself holds `{version}` ends up with the version in its place. */
  lemma SubstitutionOrder(version: string)
    ensures FillTemplate(InstallRequiresField, VersionField, "pkg", version) == version
  {
    assert InstallRequiresField == InstallRequiresField + "";
    ReplaceAtFront("", InstallRequiresField, VersionField);
    assert VersionField + "" == VersionField;
    ShortNotContains(VersionField, PackageNameField);
    ReplaceAbsent(VersionField, PackageNameField, "pkg");
    ReplaceAtFront("", VersionField, version);
    assert version + "" == version;
  }
}
