/** The total categorical parsers of `parse.hpp`: priority-ordered,
    case-sensitive substring tests with a default for unmatched text. */
module Categorical {
  import opened Strings

  /** One row of a priority table: any keyword contained in the text selects `code`. */
  datatype Rule = Rule(keywords: seq<string>, code: int)

  predicate Fires(rule: Rule, s: string) {
    exists k | k in rule.keywords :: Contains(s, k)
  }

  /** The code of the first rule at or after `from` that fires, else `default`. */
  function ClassifyFrom(rules: seq<Rule>, s: string, default: int, from: nat): (r: int)
    requires from <= |rules|
    ensures (forall i :: from <= i < |rules| ==> !Fires(rules[i], s)) ==> r == default
    ensures forall i ::
              (from <= i < |rules| && Fires(rules[i], s) && forall j :: from <= j < i ==> !Fires(rules[j], s))
              ==> r == rules[i].code
    decreases |rules| - from
  {
    if from == |rules| then default
    else if Fires(rules[from], s) then rules[from].code
    else ClassifyFrom(rules, s, default, from + 1)
  }

  /** First-match classification of `s` by a priority table. */
  function Classify(rules: seq<Rule>, s: string, default: int): int {
    ClassifyFrom(rules, s, default, 0)
  }

  const ClobberRules := [
    Rule(["never_modify"], 0),
    Rule(["append"], 1),
    Rule(["truncate", "replace_files"], 2),
    Rule(["overwrite"], 3)
  ]

  const IoTypeRules := [
    Rule(["pnetcdf,cdf5"], 1),
    Rule(["pnetcdf"], 0),
    Rule(["netcdf4"], 3),
    Rule(["netcdf"], 2)
  ]

  const PrecisionRules := [
    Rule(["single"], 4),
    Rule(["double"], 8)
  ]

  function ParseClobberMode(s: string): (r: int)
    ensures 0 <= r <= 3
    ensures r == 1 ==> Contains(s, "append")
    ensures r == 2 ==> Contains(s, "truncate") || Contains(s, "replace_files")
    ensures r == 3 ==> Contains(s, "overwrite")
    ensures Contains(s, "never_modify") ==> r == 0
  {
    if Contains(s, "never_modify") then 0
    else if Contains(s, "append") then 1
    else if Contains(s, "truncate") || Contains(s, "replace_files") then 2
    else if Contains(s, "overwrite") then 3
    else 0
  }

  function ParseIoType(s: string): (r: int)
    ensures 0 <= r <= 3
    ensures Contains(s, "pnetcdf,cdf5") ==> r == 1
  {
    if Contains(s, "pnetcdf,cdf5") then 1
    else if Contains(s, "pnetcdf") then 0
    else if Contains(s, "netcdf4") then 3
    else if Contains(s, "netcdf") then 2
    else 0
  }

  /** Direction code: 1 input, 2 output, 3 input and output, 4 neither. */
  function ParseDirection(dir: string): (r: int)
    ensures 1 <= r <= 4
    ensures (r == 1 || r == 3) <==> Contains(dir, "input")
    ensures (r == 2 || r == 3) <==> Contains(dir, "output")
  {
    var isIn := Contains(dir, "input");
    var isOut := Contains(dir, "output");
    if isIn && isOut then 3
    else if isIn then 1
    else if isOut then 2
    else 4
  }

  function ParseReferenceTime(ref: string): (r: string)
    ensures r != ""
    ensures ref != "" ==> r == ref
    ensures ref == "" ==> r == "initial_time"
  {
    if ref == "" then "initial_time" else ref
  }

  function ParseRecordInterval(rec: string): (r: string)
    ensures r != ""
    ensures rec != "" ==> r == rec
    ensures rec == "" ==> r == "none"
  {
    if rec == "" then "none" else rec
  }

  /** Precision in bytes: 4 for single, 8 for double, 0 when unstated. */
  function ParsePrecisionBytes(precision: string): (r: int)
    ensures r == 0 || r == 4 || r == 8
    ensures r == 0 <==> !Contains(precision, "single") && !Contains(precision, "double")
    ensures Contains(precision, "single") ==> r == 4
  {
    if Contains(precision, "single") then 4
    else if Contains(precision, "double") then 8
    else 0
  }

  lemma ClobberModeFollowsTable(s: string)
    ensures ParseClobberMode(s) == Classify(ClobberRules, s, 0)
  {
    assert ClobberRules[0].keywords[0] == "never_modify";
    assert ClobberRules[1].keywords[0] == "append";
    assert ClobberRules[2].keywords[0] == "truncate" && ClobberRules[2].keywords[1] == "replace_files";
    assert ClobberRules[3].keywords[0] == "overwrite";
  }

  lemma IoTypeFollowsTable(s: string)
    ensures ParseIoType(s) == Classify(IoTypeRules, s, 0)
  {
    assert IoTypeRules[0].keywords[0] == "pnetcdf,cdf5";
    assert IoTypeRules[1].keywords[0] == "pnetcdf";
    assert IoTypeRules[2].keywords[0] == "netcdf4";
    assert IoTypeRules[3].keywords[0] == "netcdf";
  }

  lemma PrecisionFollowsTable(s: string)
    ensures ParsePrecisionBytes(s) == Classify(PrecisionRules, s, 0)
  {
    assert PrecisionRules[0].keywords[0] == "single";
    assert PrecisionRules[1].keywords[0] == "double";
  }

  /** Because the io-type keywords overlap, the checks' order decides the code:
      text naming plain `pnetcdf` gets 0 although it also mentions `netcdf`, and
      every non-zero code mentions `netcdf`. */
  lemma {:induction false} IoTypeOverlap(s: string)
    ensures ParseIoType(s) == 0 <==>
              !Contains(s, "netcdf") || (Contains(s, "pnetcdf") && !Contains(s, "pnetcdf,cdf5"))
    ensures ParseIoType(s) != 0 ==> Contains(s, "netcdf")
  {
    assert OccursAt("pnetcdf,cdf5", "pnetcdf", 0);
    assert OccursAt("pnetcdf", "netcdf", 1);
    assert OccursAt("netcdf4", "netcdf", 0);
    if Contains(s, "pnetcdf,cdf5") {
      ContainsTransitive(s, "pnetcdf,cdf5", "pnetcdf");
      ContainsTransitive(s, "pnetcdf", "netcdf");
    } else if Contains(s, "pnetcdf") {
      ContainsTransitive(s, "pnetcdf", "netcdf");
    } else if Contains(s, "netcdf4") {
      ContainsTransitive(s, "netcdf4", "netcdf");
    }
  }
}
