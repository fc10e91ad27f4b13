/** Name normalisation and the ordered exclusion scan that `add` runs before
    it consults the repository. The regular-expression engine is not part of
    the model: it is a value holding two uninterpreted functions, whether a
    pattern compiles and whether a compiled pattern matches a name. */
module Exclusion {

  /** The default exclusion patterns (TransitiveHull.IGNORED). */
  const Ignored: seq<string> := [
    "java[.].*",
    "javax[.].*",
    "sun[.].*",
    "sunw[.].*",
    "com[.]sun[.].*",
    "org[.]omg[.].*",
    "org[.]w3c[.].*",
    "org[.]xml[.].*",
    "net[.]jini[.].*"
  ]

  /** The external regular-expression engine: `compiles(p)` is false when
      building a matcher for `p` raises a syntax error; `matches(p, s)` is the
      matcher's answer for `s`. Nothing is assumed about anchoring. */
  datatype RegexEngine = RegexEngine(compiles: string -> bool, matches: (string, string) -> bool)

  /** String.replace('/', '.'): internal slash-separated form to dotted form. */
  function Normalize(s: string): (r: string)
    ensures |r| == |s|
    ensures forall i :: 0 <= i < |s| ==> r[i] == if s[i] == '/' then '.' else s[i]
  {
    if s == [] then [] else [if s[0] == '/' then '.' else s[0]] + Normalize(s[1..])
  }

  /** A normalised name holds no slash, and normalising is the identity
      exactly on names without a slash, so normalising twice changes nothing. */
  lemma NormalizeIdempotent(s: string)
    ensures '/' !in Normalize(s)
    ensures Normalize(s) == s <==> '/' !in s
    ensures Normalize(Normalize(s)) == Normalize(s)
  {
    var r := Normalize(s);
    if '/' in s {
      var i :| 0 <= i < |s| && s[i] == '/';
      assert r[i] != s[i];
    } else {
      assert forall i :: 0 <= i < |s| ==> r[i] == s[i];
    }
    assert forall i :: 0 <= i < |r| ==> Normalize(r)[i] == r[i];
  }

  /** What the scan over the patterns decides for one name: keep it, ignore it
      because pattern `index` matched, or give up because pattern `index` did
      not compile (the name is dropped in that case too). */
  datatype Verdict = Keep | Ignore(index: nat) | SyntaxError(index: nat)

  /** Pattern `p` stops the scan for `name`. */
  predicate Hit(engine: RegexEngine, p: string, name: string)
  {
    !engine.compiles(p) || engine.matches(p, name)
  }

  /** The scan from pattern `k` on: the first pattern that fails to compile
      or matches decides, in list order. */
  function FilterFrom(engine: RegexEngine, patterns: seq<string>, name: string, k: nat): (v: Verdict)
    requires k <= |patterns|
    ensures v.Keep? <==> forall j :: k <= j < |patterns| ==> !Hit(engine, patterns[j], name)
    ensures !v.Keep? ==> k <= v.index < |patterns| && Hit(engine, patterns[v.index], name)
    ensures !v.Keep? ==> forall j :: k <= j < v.index ==> !Hit(engine, patterns[j], name)
    ensures v.SyntaxError? <==> !v.Keep? && !engine.compiles(patterns[v.index])
    decreases |patterns| - k
  {
    if k == |patterns| then Keep
    else if !engine.compiles(patterns[k]) then SyntaxError(k)
    else if engine.matches(patterns[k], name) then Ignore(k)
    else FilterFrom(engine, patterns, name, k + 1)
  }

  /** The verdict of the whole scan. */
  function Filter(engine: RegexEngine, patterns: seq<string>, name: string): Verdict
  {
    FilterFrom(engine, patterns, name, 0)
  }

  /** The name is dropped before the repository is consulted. */
  predicate Excluded(engine: RegexEngine, patterns: seq<string>, name: string)
  {
    !Filter(engine, patterns, name).Keep?
  }

  /** A name is excluded exactly when some pattern fails to compile or
      matches it; the order of the list only decides which diagnostic wins. */
  lemma ExcludedIff(engine: RegexEngine, patterns: seq<string>, name: string)
    ensures Excluded(engine, patterns, name) <==>
            exists i :: 0 <= i < |patterns| && Hit(engine, patterns[i], name)
  {
  }

  /** The exclusion loop of `add`: patterns are tried in list order, each
      compiled afresh; a syntax error or a match ends the scan. */
  method ScanIgnored(engine: RegexEngine, patterns: seq<string>, name: string) returns (v: Verdict)
    ensures v == Filter(engine, patterns, name)
  {
    for i := 0 to |patterns|
      invariant FilterFrom(engine, patterns, name, i) == Filter(engine, patterns, name)
    {
      if !engine.compiles(patterns[i]) {
        return SyntaxError(i);
      }
      if engine.matches(patterns[i], name) {
        return Ignore(i);
      }
    }
    return Keep;
  }
}
