/** Configuration validators for processors: required options, allowed options
    and mutually exclusive options, and the wrapper that runs them before a
    processor constructor (libbeat/processors/checks/checks.go). */
module Checks {

  import opened SeqFacts

  /** A configuration node as the validators see it: the names of its
      top-level options, in the order the node lists them (what GetFields
      returns), and the node's path, used in error messages. */
  datatype Config = Config(fields: seq<string>, path: string)

  /** HasField: the node has a top-level option of that name. */
  predicate HasField(cfg: Config, name: string) {
    name in cfg.fields
  }

  /** The errors the validators produce, one constructor per message format. */
  datatype Error =
    | MissingOption(name: string)                       // "missing %v option"
    | UnexpectedOption(name: string)                    // "unexpected %v option"
    | MutuallyExclusive(first: string, second: string)  // "field %s and %s are mutually exclusive"
    | MissingOneOf(names: seq<string>)                  // "missing option, select one from %v"
    | InPath(cause: Error, path: string)                // "%w in %v": a validator error wrapped with the node's path
    | ConstructorFailed(detail: string)                 // whatever error the wrapped constructor returns

  /** A validator's answer: nil, or an error. */
  datatype Outcome = Pass | Fail(error: Error)

  /** What a processor constructor returns: a processor, or an error. */
  datatype Result<P> = Ok(processor: P) | Err(error: Error)

  /** A validator: a function from a configuration node to an outcome. */
  type Check = Config -> Outcome

  // ---------------------------------------------------------------------
  // checkAll and ConfigChecked
  // ---------------------------------------------------------------------

  /** checkAll: runs the checks in argument order and returns the first error. */
  function CheckAll(checks: seq<Check>, cfg: Config): (r: Outcome)
    ensures r.Pass? <==> forall i | 0 <= i < |checks| :: checks[i](cfg).Pass?
    ensures r.Fail? ==>
      exists i | 0 <= i < |checks| ::
        r == checks[i](cfg) && forall j | 0 <= j < i :: checks[j](cfg).Pass?
    decreases |checks|
  {
    if checks == [] then Pass
    else if checks[0](cfg).Fail? then checks[0](cfg)
    else
      var rest := CheckAll(checks[1..], cfg);
      assert forall i | 1 <= i < |checks| :: checks[i] == checks[1..][i - 1];
      assert rest.Fail? ==> exists i | 0 <= i < |checks[1..]| ::
        rest == checks[1..][i](cfg) && forall j | 0 <= j < i :: checks[1..][j](cfg).Pass?;
      rest
  }

  /** Once a check fails, the checks after it are never consulted: appending
      more checks does not change the answer. */
  lemma {:induction false} CheckAllStopsAtFirstFailure(checks: seq<Check>, later: seq<Check>, cfg: Config)
    requires CheckAll(checks, cfg).Fail?
    ensures CheckAll(checks + later, cfg) == CheckAll(checks, cfg)
    decreases |checks|
  {
    if checks[0](cfg).Pass? {
      assert (checks + later)[1..] == checks[1..] + later;
      CheckAllStopsAtFirstFailure(checks[1..], later, cfg);
    }
  }

  /** An empty list of checks accepts every configuration, and adding passing
      checks never turns a pass into a failure. */
  lemma {:induction false} CheckAllAppendPassing(checks: seq<Check>, later: seq<Check>, cfg: Config)
    requires CheckAll(checks, cfg).Pass?
    ensures CheckAll([], cfg) == Pass
    ensures CheckAll(checks + later, cfg) == CheckAll(later, cfg)
    decreases |checks|
  {
    if checks == [] {
      assert checks + later == later;
    } else {
      assert (checks + later)[0] == checks[0];
      assert (checks + later)[1..] == checks[1..] + later;
      assert checks[0](cfg).Pass?;
      CheckAllAppendPassing(checks[1..], later, cfg);
    }
  }

  /** ConfigChecked: the wrapped constructor, guarded by all the checks. The
      constructor's answer is returned only when every check passes; otherwise
      the first failing check's error is returned, wrapped with the path. */
  function ConfigChecked<P>(constr: Config -> Result<P>, checks: seq<Check>, cfg: Config): (r: Result<P>)
    ensures (forall i | 0 <= i < |checks| :: checks[i](cfg).Pass?) ==> r == constr(cfg)
    ensures !(forall i | 0 <= i < |checks| :: checks[i](cfg).Pass?) ==>
      exists i | 0 <= i < |checks| ::
        && checks[i](cfg).Fail?
        && (forall j | 0 <= j < i :: checks[j](cfg).Pass?)
        && r == Err(InPath(checks[i](cfg).error, cfg.path))
  {
    var verdict := CheckAll(checks, cfg);
    if verdict.Fail? then Err(InPath(verdict.error, cfg.path)) else constr(cfg)
  }

  /** On a validation failure the constructor is not consulted: any two
      constructors give the same answer, and that answer is an error whose
      cause is the validator's error. */
  lemma ConfigCheckedSkipsConstructor<P>(c1: Config -> Result<P>, c2: Config -> Result<P>, checks: seq<Check>, cfg: Config)
    requires CheckAll(checks, cfg).Fail?
    ensures ConfigChecked(c1, checks, cfg) == ConfigChecked(c2, checks, cfg)
    ensures ConfigChecked(c1, checks, cfg).Err?
    ensures ConfigChecked(c1, checks, cfg).error.InPath?
    ensures ConfigChecked(c1, checks, cfg).error.cause == CheckAll(checks, cfg).error
  {
  }

  // ---------------------------------------------------------------------
  // RequireFields
  // ---------------------------------------------------------------------

  /** RequireFields: every listed name is an option of the node; otherwise
      the error names the first missing one in argument order. */
  function RequireFields(names: seq<string>, cfg: Config): (r: Outcome)
    ensures r.Pass? <==> forall i | 0 <= i < |names| :: HasField(cfg, names[i])
    ensures r.Fail? ==>
      exists i | 0 <= i < |names| ::
        && !HasField(cfg, names[i])
        && (forall j | 0 <= j < i :: HasField(cfg, names[j]))
        && r == Fail(MissingOption(names[i]))
    decreases |names|
  {
    if names == [] then Pass
    else if !HasField(cfg, names[0]) then Fail(MissingOption(names[0]))
    else
      var rest := RequireFields(names[1..], cfg);
      assert forall i | 1 <= i < |names| :: names[i] == names[1..][i - 1];
      rest
  }

  // ---------------------------------------------------------------------
  // AllowedFields
  // ---------------------------------------------------------------------

  /** The outcome of AllowedFields on a suffix of the node's options. */
  function AllowedFrom(fields: seq<string>, names: seq<string>): (r: Outcome)
    ensures r.Pass? <==> forall i | 0 <= i < |fields| :: fields[i] in names
    ensures r.Fail? ==>
      exists i | 0 <= i < |fields| ::
        && fields[i] !in names
        && (forall j | 0 <= j < i :: fields[j] in names)
        && r == Fail(UnexpectedOption(fields[i]))
    decreases |fields|
  {
    if fields == [] then Pass
    else if fields[0] !in names then Fail(UnexpectedOption(fields[0]))
    else
      var rest := AllowedFrom(fields[1..], names);
      assert forall i | 1 <= i < |fields| :: fields[i] == fields[1..][i - 1];
      rest
  }

  /** AllowedFields: every option of the node is on the list; otherwise the
      error names the first option, in the node's order, that is not. */
  function AllowedFields(names: seq<string>, cfg: Config): (r: Outcome)
    ensures r.Pass? <==> forall i | 0 <= i < |cfg.fields| :: cfg.fields[i] in names
    ensures r.Fail? ==>
      exists i | 0 <= i < |cfg.fields| ::
        && cfg.fields[i] !in names
        && (forall j | 0 <= j < i :: cfg.fields[j] in names)
        && r == Fail(UnexpectedOption(cfg.fields[i]))
    ensures cfg.fields == [] ==> r == Pass
  {
    AllowedFrom(cfg.fields, names)
  }

  /** The nested loops of AllowedFields: for each option of the node, search
      the list, and stop at the first option that is not found. */
  method CheckAllowedFields(names: seq<string>, cfg: Config) returns (r: Outcome)
    ensures r == AllowedFields(names, cfg)
  {
    var i := 0;
    while i < |cfg.fields|
      invariant 0 <= i <= |cfg.fields|
      invariant AllowedFrom(cfg.fields[i..], names) == AllowedFrom(cfg.fields, names)
    {
      var field := cfg.fields[i];
      var found := false;
      var j := 0;
      while j < |names|
        invariant 0 <= j <= |names|
        invariant !found ==> field !in names[..j]
        invariant found ==> field in names
      {
        if field == names[j] {
          found := true;
          break;
        }
        j := j + 1;
      }
      assert !found ==> names[..j] == names;
      if !found {
        return Fail(UnexpectedOption(field));
      }
      assert cfg.fields[i..][1..] == cfg.fields[i + 1..];
      i := i + 1;
    }
    r := Pass;
  }

  // ---------------------------------------------------------------------
  // MutuallyExclusiveRequiredFields
  // ---------------------------------------------------------------------

  /** The inner loop's matches for one option of the node: the option once
      for each entry of the list equal to it (so twice when it is listed
      twice). */
  function Hits(field: string, names: seq<string>): (r: seq<string>)
    ensures |r| == multiset(names)[field]
    ensures forall x | x in r :: x == field
    decreases |names|
  {
    if names == [] then []
    else
      assert names == [names[0]] + names[1..];
      (if names[0] == field then [field] else []) + Hits(field, names[1..])
  }

  /** Every match the two nested loops meet, in the order they meet them:
      each is an option of the node that is on the list. */
  function Matches(fields: seq<string>, names: seq<string>): (r: seq<string>)
    ensures forall m | m in r :: m in fields && m in names
    decreases |fields|
  {
    if fields == [] then []
    else
      var hits := Hits(fields[0], names);
      assert hits != [] ==> fields[0] in multiset(names);
      hits + Matches(fields[1..], names)
  }

  /** The loop's state: still looking (with the current foundField, "" for
      none), or two matches have been met. */
  datatype Scan = Searching(found: string) | Clash(first: string, second: string)

  /** One match: foundField is taken when it is still empty (its length is
      zero), otherwise the loop stops with a conflict. */
  function Step(s: Scan, field: string): (r: Scan)
    ensures s.Clash? ==> r == s
    ensures s.Searching? ==> (r.Clash? <==> |s.found| > 0)
    ensures r.Searching? ==> r.found == field
    ensures s.Searching? && r.Clash? ==> r == Clash(s.found, field)
  {
    match s
    case Searching(found) => if |found| == 0 then Searching(field) else Clash(found, field)
    case Clash(_, _) => s
  }

  /** The loop over a sequence of matches: once two matches have been met,
      later matches change nothing; otherwise its answer names the matches
      it met. */
  function ScanFrom(s: Scan, ms: seq<string>): (r: Scan)
    ensures s.Clash? ==> r == s
    ensures r.Searching? ==> s.Searching? && (r.found == s.found || r.found in ms)
    ensures s.Searching? && r.Clash? ==> (r.first == s.found || r.first in ms) && r.second in ms
    decreases |ms|
  {
    if ms == [] then s
    else
      var r := ScanFrom(Step(s, ms[0]), ms[1..]);
      assert forall m | m in ms[1..] :: m in ms;
      r
  }

  /** MutuallyExclusiveRequiredFields, as written: a conflict on the second
      match, and a missing option when foundField is still empty at the end. */
  function MutuallyExclusiveRequiredFields(names: seq<string>, cfg: Config): (r: Outcome)
    ensures r.Pass? ==> |Matches(cfg.fields, names)| > 0
    ensures r.Fail? ==> r.error.MutuallyExclusive? || r == Fail(MissingOneOf(names))
  {
    match ScanFrom(Searching(""), Matches(cfg.fields, names))
    case Clash(a, b) => Fail(MutuallyExclusive(a, b))
    case Searching(found) =>
      if |found| == 0 then Fail(MissingOneOf(names))
      else
        assert ScanFrom(Searching(""), []) == Searching("");
        Pass
  }

  /** The matches from position j on: the entry at j, then the rest. */
  lemma HitsStep(field: string, names: seq<string>, j: nat)
    requires j < |names|
    ensures Hits(field, names[j..]) == (if names[j] == field then [field] else []) + Hits(field, names[j + 1..])
  {
    assert names[j..][1..] == names[j + 1..];
  }

  /** Scanning a match, then the rest. */
  lemma ScanCons(s: Scan, field: string, ms: seq<string>)
    ensures ScanFrom(s, [field] + ms) == ScanFrom(Step(s, field), ms)
  {
    assert ([field] + ms)[1..] == ms;
  }

  /** The nested loops of MutuallyExclusiveRequiredFields, with the early
      return on the second match. */
  method CheckMutuallyExclusive(names: seq<string>, cfg: Config) returns (r: Outcome)
    ensures r == MutuallyExclusiveRequiredFields(names, cfg)
  {
    ghost var goal := ScanFrom(Searching(""), Matches(cfg.fields, names));
    var foundField := "";
    var i := 0;
    assert cfg.fields[0..] == cfg.fields;
    while i < |cfg.fields|
      invariant 0 <= i <= |cfg.fields|
      invariant ScanFrom(Searching(foundField), Matches(cfg.fields[i..], names)) == goal
    {
      var field := cfg.fields[i];
      ghost var rest := Matches(cfg.fields[i + 1..], names);
      assert cfg.fields[i..][1..] == cfg.fields[i + 1..];
      assert names[0..] == names;
      var j := 0;
      while j < |names|
        invariant 0 <= j <= |names|
        invariant ScanFrom(Searching(foundField), Hits(field, names[j..]) + rest) == goal
      {
        HitsStep(field, names, j);
        if field == names[j] {
          ghost var tail := Hits(field, names[j + 1..]) + rest;
          Append3([field], Hits(field, names[j + 1..]), rest);
          ScanCons(Searching(foundField), field, tail);
          if |foundField| == 0 {
            foundField := field;
          } else {
            assert ScanFrom(Clash(foundField, field), tail) == Clash(foundField, field);
            return Fail(MutuallyExclusive(foundField, field));
          }
        } else {
          assert Hits(field, names[j..]) == Hits(field, names[j + 1..]);
        }
        j := j + 1;
      }
      assert names[j..] == [];
      assert Hits(field, names[j..]) + rest == rest;
      i := i + 1;
    }
    assert cfg.fields[i..] == [];
    if |foundField| == 0 {
      r := Fail(MissingOneOf(names));
    } else {
      r := Pass;
    }
  }

  /** The node's options that belong to the list, in the node's order. */
  function Present(fields: seq<string>, names: seq<string>): (r: seq<string>)
    ensures forall i | 0 <= i < |r| :: r[i] in fields && r[i] in names
    decreases |fields|
  {
    if fields == [] then []
    else (if fields[0] in names then [fields[0]] else []) + Present(fields[1..], names)
  }

  predicate Distinct(names: seq<string>) {
    forall i, j | 0 <= i < j < |names| :: names[i] != names[j]
  }

  lemma {:induction false} HitsOfDistinct(field: string, names: seq<string>)
    requires Distinct(names)
    ensures Hits(field, names) == if field in names then [field] else []
    decreases |names|
  {
    if names != [] {
      HitsOfDistinct(field, names[1..]);
      assert field in names[1..] ==> names[0] != field;
      assert field in names <==> field == names[0] || field in names[1..];
    }
  }

  lemma {:induction false} MatchesOfDistinct(fields: seq<string>, names: seq<string>)
    requires Distinct(names)
    ensures Matches(fields, names) == Present(fields, names)
    decreases |fields|
  {
    if fields != [] {
      HitsOfDistinct(fields[0], names);
      MatchesOfDistinct(fields[1..], names);
    }
  }

  /** With a non-empty foundField, the next match is a conflict. */
  lemma {:induction false} ScanAfterFirst(found: string, ms: seq<string>)
    requires |found| > 0
    ensures ScanFrom(Searching(found), ms) == if ms == [] then Searching(found) else Clash(found, ms[0])
  {
    if ms != [] {
      assert ScanFrom(Clash(found, ms[0]), ms[1..]) == Clash(found, ms[0]);
    }
  }

  /** MutuallyExclusiveRequiredFields, for a list of distinct non-empty names:
      it passes exactly when one option of the node is on the list; with none
      it reports the missing option, and with two or more it names the first
      two of them in the node's order. */
  lemma MutuallyExclusiveMeaning(names: seq<string>, cfg: Config)
    requires Distinct(names) && "" !in names
    ensures var present := Present(cfg.fields, names);
      && (MutuallyExclusiveRequiredFields(names, cfg).Pass? <==> |present| == 1)
      && (|present| == 0 ==> MutuallyExclusiveRequiredFields(names, cfg) == Fail(MissingOneOf(names)))
      && (|present| >= 2 ==>
            MutuallyExclusiveRequiredFields(names, cfg) == Fail(MutuallyExclusive(present[0], present[1])))
  {
    var present := Present(cfg.fields, names);
    MatchesOfDistinct(cfg.fields, names);
    if present != [] {
      assert present[0] in names;
      assert |present[0]| > 0;
      ScanAfterFirst(present[0], present[1..]);
      if |present| >= 2 {
        assert present[1..][0] == present[1];
      }
    }
  }

  /** Two steps of the loop at once. */
  lemma ScanTwo(s: Scan, ms: seq<string>)
    requires |ms| >= 2
    ensures ScanFrom(s, ms) == ScanFrom(Step(Step(s, ms[0]), ms[1]), ms[2..])
  {
    assert ms[1..][1..] == ms[2..];
  }

  /** A non-empty match followed by any other match ends in a conflict,
      whatever the loop's state before them. */
  lemma {:induction false} ScanClashes(s: Scan, ms: seq<string>, k: nat)
    requires k + 1 < |ms| && |ms[k]| > 0
    ensures ScanFrom(s, ms).Clash?
    decreases |ms|
  {
    if s.Searching? {
      if k == 0 {
        ScanTwo(s, ms);
      } else {
        ScanClashes(Step(s, ms[0]), ms[1..], k - 1);
      }
    }
  }

  /** The matches when no option before position i is on the list: those of
      the option at i come first. */
  lemma {:induction false} MatchesLeading(fields: seq<string>, names: seq<string>, i: nat)
    requires i < |fields|
    requires forall j | 0 <= j < i :: fields[j] !in names
    ensures Matches(fields, names) == Hits(fields[i], names) + Matches(fields[i + 1..], names)
    decreases i
  {
    if i > 0 {
      var tail := fields[1..];
      assert fields[0] !in names;
      assert Hits(fields[0], names) == [];
      assert Matches(fields, names) == Matches(tail, names);
      assert tail[i - 1] == fields[i] && tail[i..] == fields[i + 1..];
      assert forall j | 0 <= j < i - 1 :: tail[j] == fields[j + 1];
      MatchesLeading(tail, names, i - 1);
    }
  }

  /** An option that matches at least twice gives two adjacent matches. */
  lemma {:induction false} MatchesHasPair(fields: seq<string>, names: seq<string>, name: string)
    requires name in fields && |Hits(name, names)| >= 2
    ensures exists k: nat | k + 1 < |Matches(fields, names)| :: Matches(fields, names)[k] == name
    decreases |fields|
  {
    var hits := Hits(fields[0], names);
    var ms := Matches(fields, names);
    if fields[0] == name {
      assert hits[0] in hits;
      assert ms[0] == name;
    } else {
      assert name in fields[1..];
      MatchesHasPair(fields[1..], names, name);
      var rest := Matches(fields[1..], names);
      var k: nat :| k + 1 < |rest| && rest[k] == name;
      assert ms[|hits| + k] == name;
    }
  }

  /** A name listed twice matches twice: when that option is present, the
      check fails with a conflict, and when no listed option comes before it
      in the node, the option is reported as conflicting with itself. */
  lemma DuplicateNameConflicts(name: string, names: seq<string>, cfg: Config)
    requires |name| > 0 && name in cfg.fields && multiset(names)[name] >= 2
    ensures MutuallyExclusiveRequiredFields(names, cfg).Fail?
    ensures MutuallyExclusiveRequiredFields(names, cfg).error.MutuallyExclusive?
    ensures (exists i | 0 <= i < |cfg.fields| :: cfg.fields[i] == name && forall j | 0 <= j < i :: cfg.fields[j] !in names) ==>
      MutuallyExclusiveRequiredFields(names, cfg) == Fail(MutuallyExclusive(name, name))
  {
    var ms := Matches(cfg.fields, names);
    MatchesHasPair(cfg.fields, names, name);
    var k: nat :| k + 1 < |ms| && ms[k] == name;
    ScanClashes(Searching(""), ms, k);
    if exists i | 0 <= i < |cfg.fields| :: cfg.fields[i] == name && forall j | 0 <= j < i :: cfg.fields[j] !in names {
      var i :| 0 <= i < |cfg.fields| && cfg.fields[i] == name && forall j | 0 <= j < i :: cfg.fields[j] !in names;
      MatchesLeading(cfg.fields, names, i);
      var hits := Hits(name, names);
      assert hits[0] in hits && hits[1] in hits;
      assert ms[0] == name && ms[1] == name;
      ScanTwo(Searching(""), ms);
    }
  }

  /** Scanning only empty matches leaves foundField empty. */
  lemma {:induction false} ScanEmpty(ms: seq<string>)
    requires forall m | m in ms :: m == ""
    ensures ScanFrom(Searching(""), ms) == Searching("")
    decreases |ms|
  {
    if ms != [] {
      assert ms[0] in ms;
      assert forall m | m in ms[1..] :: m in ms;
      ScanEmpty(ms[1..]);
    }
  }

  /** An option named "" never counts as found, because foundField is tested
      by its length: when every listed option the node has is "", the node
      is reported as missing the option. */
  lemma EmptyNameNeverFound(names: seq<string>, cfg: Config)
    requires forall f | f in cfg.fields && f in names :: f == ""
    ensures MutuallyExclusiveRequiredFields(names, cfg) == Fail(MissingOneOf(names))
  {
    ScanEmpty(Matches(cfg.fields, names));
  }
}
