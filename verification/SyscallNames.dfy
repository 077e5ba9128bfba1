/** Syscall names and their versions. */
module SyscallNames {
  import opened Prelude

  const PREFIX := "sys."

  /** Position of the first dot, or the length when there is none. */
  function FindDot(s: string): (k: nat)
    ensures k <= |s|
    ensures k < |s| ==> s[k] == '.'
    ensures forall i :: 0 <= i < k ==> s[i] != '.'
  {
    if s == "" || s[0] == '.' then 0 else 1 + FindDot(s[1..])
  }

  predicate HasPrefix(name: string) {
    PREFIX <= name
  }

  /** (version, action) of a fully qualified name. */
  function Parse(name: string): Result<(string, string)> {
    if !HasPrefix(name) then Err("prefix")
    else
      var rest := name[|PREFIX|..];
      var dot := FindDot(rest);
      if dot == |rest| then Err("missing version segment")
      else if rest[..dot] == "" then Err("empty version")
      else if rest[dot + 1..] == "" then Err("empty action")
      else Ok((rest[..dot], rest[dot + 1..]))
  }

  function FullName(version: string, action: string): string {
    "sys." + version + "." + action
  }

  predicate Segment(version: string) {
    version != "" && '.' !in version
  }

  lemma FindDotAt(version: string, action: string)
    requires '.' !in version
    ensures FindDot(version + "." + action) == |version|
  {
    var s := version + "." + action;
    assert s[|version|] == '.';
  }

  /** Parsing a printed name gives its parts back exactly when the version is a non-empty segment
      without dots and the action is not empty. */
  lemma ParsePrinted(version: string, action: string)
    ensures Parse(FullName(version, action)) == Ok((version, action)) <==> Segment(version) && action != ""
  {
    var name := FullName(version, action);
    var rest := version + "." + action;
    assert name == PREFIX + rest;
    assert name[|PREFIX|..] == rest;
    if '.' !in version {
      FindDotAt(version, action);
      assert rest[..|version|] == version && rest[|version| + 1..] == action;
    }
  }

  /** Printing a parsed name gives the name back. */
  lemma PrintParsed(name: string)
    requires Parse(name).Ok?
    ensures var (version, action) := Parse(name).value;
            FullName(version, action) == name && Segment(version) && action != ""
  {
    var rest := name[|PREFIX|..];
    var dot := FindDot(rest);
    assert name == PREFIX + rest;
    assert rest == rest[..dot] + "." + rest[dot + 1..];
  }

  /** Distinct pairs have distinct printed names. */
  lemma FullNameInjective(v1: string, a1: string, v2: string, a2: string)
    requires Segment(v1) && Segment(v2) && a1 != "" && a2 != ""
    requires FullName(v1, a1) == FullName(v2, a2)
    ensures v1 == v2 && a1 == a2
  {
    ParsePrinted(v1, a1);
    ParsePrinted(v2, a2);
  }

  const LATEST_STABLE := "v1"

  /** The version to use: the requested one when present, else with fallback the stable one. */
  function ResolveVersion(requested: string, available: set<string>, fallback: bool): Result<string> {
    if requested in available then Ok(requested)
    else if fallback && LATEST_STABLE in available then Ok(LATEST_STABLE)
    else Err("unknown version")
  }
}
