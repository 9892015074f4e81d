/** `VepFilter` (vape/vep_filter.py:6-88): the per-allele decision whether
    the VEP consequence annotations of a record keep any of its alternate
    alleles.

    Construction reads two tables (consequence classes and biotypes), each
    line `name <TAB> flag`, where a flag of `default` marks the names used
    when none are asked for; it then turns the requested class and biotype
    names into the two sets the filter tests against.  The tables' lines
    are inputs here; opening the files is not modelled. */
module Vep {
  import opened Outcomes
  import opened Text
  import opened InSilico

  // ---------------------------------------------------------------------
  // The class and biotype tables (vape/vep_filter.py:75-88)
  // ---------------------------------------------------------------------

  /** A table line that names something: not a comment, and at least two
      columns. */
  predicate Usable(line: string) {
    !StartsWith(line, '#') && |Columns(line)| >= 2
  }

  /** A usable line whose second column marks a default name. */
  predicate MarksDefault(line: string) {
    Usable(line) && Columns(line)[1] == "default"
  }

  /** `valid`: the first column of every usable line, in table order. */
  function ValidNames(lines: seq<string>): seq<string>
    decreases |lines|
  {
    if lines == [] then []
    else
      var last := lines[|lines| - 1];
      ValidNames(lines[..|lines| - 1]) + (if Usable(last) then [Columns(last)[0]] else [])
  }

  /** `defaults`: the first column of every usable line marked `default`. */
  function DefaultNames(lines: seq<string>): seq<string>
    decreases |lines|
  {
    if lines == [] then []
    else
      var last := lines[|lines| - 1];
      DefaultNames(lines[..|lines| - 1]) + (if MarksDefault(last) then [Columns(last)[0]] else [])
  }

  /** Whether `line` is usable and names `x` in its first column. */
  predicate ListsName(line: string, x: string) {
    Usable(line) && Columns(line)[0] == x
  }

  /** Whether `line` marks `x` as a default name. */
  predicate ListsDefault(line: string, x: string) {
    MarksDefault(line) && Columns(line)[0] == x
  }

  /** The valid names of a table are exactly the first columns of its
      usable lines. */
  lemma {:induction false} ValidNamesExactly(lines: seq<string>, x: string)
    ensures x in ValidNames(lines) <==> exists k :: 0 <= k < |lines| && ListsName(lines[k], x)
    decreases |lines|
  {
    if lines != [] {
      var init := lines[..|lines| - 1];
      var last := lines[|lines| - 1];
      ValidNamesExactly(init, x);
      assert x in ValidNames(lines) <==> x in ValidNames(init) || ListsName(last, x);
      ExistsLine(lines, x, false);
    }
  }

  /** The default names of a table are exactly the first columns of its
      lines marked `default`. */
  lemma {:induction false} DefaultNamesExactly(lines: seq<string>, x: string)
    ensures x in DefaultNames(lines) <==> exists k :: 0 <= k < |lines| && ListsDefault(lines[k], x)
    decreases |lines|
  {
    if lines != [] {
      var init := lines[..|lines| - 1];
      var last := lines[|lines| - 1];
      DefaultNamesExactly(init, x);
      assert x in DefaultNames(lines) <==> x in DefaultNames(init) || ListsDefault(last, x);
      ExistsLine(lines, x, true);
    }
  }

  /** Some line of a non-empty table lists `x` exactly when some line
      before the last does or the last does. */
  lemma ExistsLine(lines: seq<string>, x: string, defaults: bool)
    requires lines != []
    ensures var init := lines[..|lines| - 1];
            var last := lines[|lines| - 1];
            if defaults then
              (exists k :: 0 <= k < |lines| && ListsDefault(lines[k], x)) <==>
                (exists k :: 0 <= k < |init| && ListsDefault(init[k], x)) || ListsDefault(last, x)
            else
              (exists k :: 0 <= k < |lines| && ListsName(lines[k], x)) <==>
                (exists k :: 0 <= k < |init| && ListsName(init[k], x)) || ListsName(last, x)
  {
    var init := lines[..|lines| - 1];
    forall k | 0 <= k < |init| ensures init[k] == lines[k] { }
  }

  /** Every default name is a valid name. */
  lemma DefaultsAreValid(lines: seq<string>, x: string)
    requires x in DefaultNames(lines)
    ensures x in ValidNames(lines)
  {
    DefaultNamesExactly(lines, x);
    ValidNamesExactly(lines, x);
  }

  /** `_get_valid_and_default`: one pass over the table, appending to both
      lists. */
  method ValidAndDefault(lines: seq<string>) returns (defaults: seq<string>, valid: seq<string>)
    ensures defaults == DefaultNames(lines) && valid == ValidNames(lines)
  {
    defaults, valid := [], [];
    var i := 0;
    while i < |lines|
      invariant i <= |lines|
      invariant defaults == DefaultNames(lines[..i]) && valid == ValidNames(lines[..i])
    {
      assert lines[..i + 1][..i] == lines[..i];
      var line := lines[i];
      if !StartsWith(line, '#') {
        var cols := Columns(line);
        if |cols| >= 2 {
          valid := valid + [cols[0]];
          if cols[1] == "default" {
            defaults := defaults + [cols[0]];
          }
        }
      }
      i := i + 1;
    }
    assert lines[..i] == lines;
  }

  // ---------------------------------------------------------------------
  // Choosing classes and biotypes (vape/vep_filter.py:14-39)
  // ---------------------------------------------------------------------

  /** The names asked for, with an empty request meaning `default`. */
  function Effective(names: seq<string>): (r: seq<string>)
    ensures |r| >= 1
    ensures names != [] ==> r == names
  {
    if names == [] then ["default"] else names
  }

  /** The exception for a name neither sentinel nor in the table. */
  function Unrecognised(biotype: bool, name: string): Error {
    if biotype then UnknownBiotype(name) else UnknownConsequence(name)
  }

  /** What one requested name adds to the set, or None when it is not
      recognised.  Names are lower-cased first; `all` is a sentinel only
      for biotypes. */
  function Selection(name: string, defaults: seq<string>, valid: seq<string>, biotype: bool): Option<set<string>> {
    var l := Lower(name);
    if biotype && l == "all" then Some(set x | x in valid)
    else if l == "default" then Some(set x | x in defaults)
    else if l in valid then Some({l})
    else None
  }

  /** The set built from the requested names, in order; the first
      unrecognised name ends construction. */
  function Select(names: seq<string>, defaults: seq<string>, valid: seq<string>, biotype: bool): Result<set<string>>
    decreases |names|
  {
    if names == [] then Ok({})
    else
      var sofar :- Select(names[..|names| - 1], defaults, valid, biotype);
      var last := names[|names| - 1];
      match Selection(last, defaults, valid, biotype)
      case Some(add) => Ok(sofar + add)
      case None => Err(Unrecognised(biotype, last))
  }

  /** Construction succeeds exactly when every requested name is
      recognised; the set is then the union of what each name adds, and
      otherwise the error names the first name that is not recognised. */
  lemma {:induction false} SelectExactly(names: seq<string>, defaults: seq<string>, valid: seq<string>, biotype: bool)
    ensures var r := Select(names, defaults, valid, biotype);
            r.Ok? <==> forall k :: 0 <= k < |names| ==> Selection(names[k], defaults, valid, biotype).Some?
    ensures var r := Select(names, defaults, valid, biotype);
            r.Ok? ==> forall x :: x in r.value <==>
                        exists k :: 0 <= k < |names| && x in Selection(names[k], defaults, valid, biotype).value
    ensures var r := Select(names, defaults, valid, biotype);
            r.Err? ==> exists k :: 0 <= k < |names| && Selection(names[k], defaults, valid, biotype).None?
                                   && r.error == Unrecognised(biotype, names[k])
    decreases |names|
  {
    if names != [] {
      var init := names[..|names| - 1];
      var last := names[|names| - 1];
      SelectExactly(init, defaults, valid, biotype);
      forall k | 0 <= k < |init| ensures init[k] == names[k] { }
      var r := Select(names, defaults, valid, biotype);
      var p := Select(init, defaults, valid, biotype);
      if r.Ok? {
        forall x | x in r.value
          ensures exists k :: 0 <= k < |names| && x in Selection(names[k], defaults, valid, biotype).value
        {
          if x !in Selection(last, defaults, valid, biotype).value {
            var k :| 0 <= k < |init| && x in Selection(init[k], defaults, valid, biotype).value;
            assert x in Selection(names[k], defaults, valid, biotype).value;
          }
        }
      }
      if p.Err? {
        var k :| 0 <= k < |init| && Selection(init[k], defaults, valid, biotype).None?
                 && p.error == Unrecognised(biotype, init[k]);
        assert Selection(names[k], defaults, valid, biotype).None?;
      }
    }
  }

  /** One of the two construction loops: go through the requested names
      (or `default`), adding to the set or raising on the first
      unrecognised name. */
  method SelectNames(names: seq<string>, defaults: seq<string>, valid: seq<string>, biotype: bool)
    returns (r: Result<set<string>>)
    ensures r == Select(Effective(names), defaults, valid, biotype)
  {
    var eff := if |names| == 0 then ["default"] else names;
    var chosen: set<string> := {};
    var i := 0;
    while i < |eff|
      invariant i <= |eff|
      invariant Select(eff[..i], defaults, valid, biotype) == Ok(chosen)
    {
      assert eff[..i + 1][..i] == eff[..i];
      SelectStep(eff[..i + 1], defaults, valid, biotype);
      var l := Lower(eff[i]);
      if biotype && l == "all" {
        chosen := chosen + set x | x in valid;
      } else if l == "default" {
        chosen := chosen + set x | x in defaults;
      } else if l in valid {
        chosen := chosen + {l};
      } else {
        SelectKeepsError(eff, i + 1, defaults, valid, biotype);
        return Err(Unrecognised(biotype, eff[i]));
      }
      i := i + 1;
    }
    assert eff[..i] == eff;
    r := Ok(chosen);
  }

  /** The requested names in order, one more at the end. */
  lemma SelectStep(names: seq<string>, defaults: seq<string>, valid: seq<string>, biotype: bool)
    requires names != []
    ensures Select(names, defaults, valid, biotype) ==
              match Select(names[..|names| - 1], defaults, valid, biotype)
              case Err(e) => Err(e)
              case Ok(sofar) =>
                match Selection(names[|names| - 1], defaults, valid, biotype)
                case Some(add) => Ok(sofar + add)
                case None => Err(Unrecognised(biotype, names[|names| - 1]))
  {
  }

  lemma {:induction false} SelectKeepsError(names: seq<string>, i: nat, defaults: seq<string>, valid: seq<string>,
                                            biotype: bool)
    requires i <= |names|
    requires Select(names[..i], defaults, valid, biotype).Err?
    ensures Select(names, defaults, valid, biotype) == Select(names[..i], defaults, valid, biotype)
    decreases |names| - i
  {
    if i < |names| {
      assert names[..i + 1][..i] == names[..i];
      SelectKeepsError(names, i + 1, defaults, valid, biotype);
    } else {
      assert names[..i] == names;
    }
  }

  // ---------------------------------------------------------------------
  // The filter
  // ---------------------------------------------------------------------

  /** A constructed `VepFilter`: the consequence classes and biotypes that
      qualify an annotation, the canonical-only flag and the optional in
      silico filter for missense consequences. */
  datatype VepFilter = VepFilter(
    classes: set<string>,
    biotypes: set<string>,
    canonical: bool,
    inSilico: Option<InSilicoFilter>)
  {
    ghost predicate Valid() {
      inSilico.Some? ==> inSilico.value.Valid()
    }
  }

  /** `VepFilter(csq, canonical, biotypes, in_silico, ...)`.  The in silico
      tokens go through `set(in_silico)` before reaching `InSilicoFilter`;
      `enumeration` is the order in which that set yields them. */
  function Configure(classLines: seq<string>, biotypeLines: seq<string>, registryLines: seq<string>,
                     classNames: seq<string>, canonical: bool, biotypeNames: seq<string>,
                     enumeration: seq<string>, filterUnpredicted: bool, keepAnyDamaging: bool,
                     parseFloat: string -> Option<real>): (r: Result<VepFilter>)
    ensures r.Ok? ==> r.value.Valid() && r.value.canonical == canonical
    ensures r.Ok? ==> (r.value.inSilico.Some? <==> enumeration != [])
  {
    var classes :- Select(Effective(classNames), DefaultNames(classLines), ValidNames(classLines), false);
    var biotypes :- Select(Effective(biotypeNames), DefaultNames(biotypeLines), ValidNames(biotypeLines), true);
    if enumeration == [] then Ok(VepFilter(classes, biotypes, canonical, None))
    else
      var f :- Build(registryLines, enumeration, filterUnpredicted, keepAnyDamaging, parseFloat);
      Ok(VepFilter(classes, biotypes, canonical, Some(f)))
  }

  /** Each of `names` once, in some order. */
  ghost predicate Enumerates(enumeration: seq<string>, names: seq<string>) {
    && (forall t :: t in enumeration <==> t in names)
    && (forall i, j :: 0 <= i < j < |enumeration| ==> enumeration[i] != enumeration[j])
  }

  /** Only an empty list enumerates to nothing. */
  lemma EnumerationOfNothing(enumeration: seq<string>, names: seq<string>)
    requires Enumerates(enumeration, names)
    ensures enumeration == [] <==> names == []
  {
    if enumeration != [] {
      assert enumeration[0] in names;
    }
    if names != [] {
      assert names[0] in enumeration;
    }
  }

  /** The constructor (vape/vep_filter.py:9-46). */
  method NewVepFilter(classLines: seq<string>, biotypeLines: seq<string>, registryLines: seq<string>,
                      classNames: seq<string>, canonical: bool, biotypeNames: seq<string>,
                      inSilicoNames: seq<string>, enumeration: seq<string>,
                      filterUnpredicted: bool, keepAnyDamaging: bool, parseFloat: string -> Option<real>)
    returns (r: Result<VepFilter>)
    requires Enumerates(enumeration, inSilicoNames)
    ensures r == Configure(classLines, biotypeLines, registryLines, classNames, canonical, biotypeNames,
                           enumeration, filterUnpredicted, keepAnyDamaging, parseFloat)
  {
    var defaultClasses, validClasses := ValidAndDefault(classLines);
    var defaultBiotypes, validBiotypes := ValidAndDefault(biotypeLines);
    var classes := SelectNames(classNames, defaultClasses, validClasses, false);
    if classes.Err? {
      return Err(classes.error);
    }
    var biotypes := SelectNames(biotypeNames, defaultBiotypes, validBiotypes, true);
    if biotypes.Err? {
      return Err(biotypes.error);
    }
    if |inSilicoNames| == 0 {
      EnumerationOfNothing(enumeration, inSilicoNames);
      return Ok(VepFilter(classes.value, biotypes.value, canonical, None));
    }
    EnumerationOfNothing(enumeration, inSilicoNames);
    var f := NewInSilicoFilter(registryLines, enumeration, filterUnpredicted, keepAnyDamaging, parseFloat);
    if f.Err? {
      return Err(f.error);
    }
    r := Ok(VepFilter(classes.value, biotypes.value, canonical, Some(f.value)));
  }

  /** One VEP annotation of a record: its fields and the `alt_index` the
      parser gives it (1 for the first alternate allele). */
  datatype Csq = Csq(fields: map<string, string>, altIndex: int)

  /** What `filter` reads of a record: its alleles (reference first) and
      its annotations in the parser's order. */
  datatype VepRecord = VepRecord(alleles: seq<string>, csqs: seq<Csq>)

  /** `len(record.ALLELES) - 1`, and `[True] * n` is empty when n <= 0. */
  function AltCount(rec: VepRecord): nat {
    if |rec.alleles| == 0 then 0 else |rec.alleles| - 1
  }

  /** The element `xs[idx]` names in Python, counting from the end for a
      negative index; None is an IndexError. */
  function PyIndex(n: nat, idx: int): (r: Option<nat>)
    ensures r.Some? ==> r.value < n
    ensures r.Some? ==> r.value == idx || r.value == n + idx
    ensures r.None? <==> idx >= n || n + idx < 0
  {
    if 0 <= idx < n then Some(idx)
    else if 0 <= n + idx && idx < 0 then Some(n + idx)
    else None
  }

  /** The allele an annotation writes to: `filter_alleles[alt_index - 1]`. */
  function Target(n: nat, c: Csq): Option<nat> {
    PyIndex(n, c.altIndex - 1)
  }

  /** Whether the annotation is skipped: in canonical-only mode a
      `CANONICAL` other than `YES` skips it (a missing one does not), and
      so does a biotype outside the set; a missing `BIOTYPE` fails. */
  function Skipped(vf: VepFilter, c: Csq): Result<bool> {
    if vf.canonical && "CANONICAL" in c.fields && c.fields["CANONICAL"] != "YES" then Ok(true)
    else if "BIOTYPE" !in c.fields then Err(KeyError("BIOTYPE"))
    else Ok(c.fields["BIOTYPE"] !in vf.biotypes)
  }

  /** The verdict a qualifying term gives its allele: the in silico
      verdict for `missense_variant` when an in silico filter is set up,
      otherwise false (keep). */
  function TermVerdict(vf: VepFilter, c: Csq, term: string, parseFloat: string -> Option<real>): Result<bool>
    requires vf.Valid()
  {
    if vf.inSilico.Some? && term == "missense_variant" then Decide(vf.inSilico.value, c.fields, parseFloat)
    else Ok(false)
  }

  /** One consequence term of an annotation applied to the allele flags. */
  function ApplyTerm(vf: VepFilter, c: Csq, term: string, flags: seq<bool>, parseFloat: string -> Option<real>)
    : (r: Result<seq<bool>>)
    requires vf.Valid()
    ensures r.Ok? ==> |r.value| == |flags|
    ensures r.Ok? ==> forall k :: 0 <= k < |flags| && Target(|flags|, c) != Some(k) ==> r.value[k] == flags[k]
    ensures r.Ok? && term in vf.classes ==>
              && Target(|flags|, c).Some? && TermVerdict(vf, c, term, parseFloat).Ok?
              && r.value[Target(|flags|, c).value] == TermVerdict(vf, c, term, parseFloat).value
    ensures term !in vf.classes ==> r == Ok(flags)
  {
    if term !in vf.classes then Ok(flags)
    else
      var v :- TermVerdict(vf, c, term, parseFloat);
      match Target(|flags|, c)
      case None => Err(IndexError)
      case Some(i) => Ok(flags[i := v])
  }

  /** The terms of one annotation, in order. */
  function ApplyTerms(vf: VepFilter, c: Csq, terms: seq<string>, flags: seq<bool>, parseFloat: string -> Option<real>)
    : (r: Result<seq<bool>>)
    requires vf.Valid()
    ensures r.Ok? ==> |r.value| == |flags|
    ensures r.Ok? ==> forall k :: 0 <= k < |flags| && Target(|flags|, c) != Some(k) ==> r.value[k] == flags[k]
    decreases |terms|
  {
    if terms == [] then Ok(flags)
    else
      var sofar :- ApplyTerms(vf, c, terms[..|terms| - 1], flags, parseFloat);
      ApplyTerm(vf, c, terms[|terms| - 1], sofar, parseFloat)
  }

  /** One annotation: skipped, or its `&`-separated consequence terms
      applied in order. */
  function ApplyCsq(vf: VepFilter, c: Csq, flags: seq<bool>, parseFloat: string -> Option<real>)
    : (r: Result<seq<bool>>)
    requires vf.Valid()
    ensures r.Ok? ==> |r.value| == |flags|
    ensures r.Ok? ==> forall k :: 0 <= k < |flags| && Target(|flags|, c) != Some(k) ==> r.value[k] == flags[k]
  {
    var skipped :- Skipped(vf, c);
    if skipped then Ok(flags)
    else if "Consequence" !in c.fields then Err(KeyError("Consequence"))
    else ApplyTerms(vf, c, Split(c.fields["Consequence"], '&'), flags, parseFloat)
  }

  /** The annotations in order. */
  function ApplyAll(vf: VepFilter, csqs: seq<Csq>, flags: seq<bool>, parseFloat: string -> Option<real>)
    : (r: Result<seq<bool>>)
    requires vf.Valid()
    ensures r.Ok? ==> |r.value| == |flags|
    decreases |csqs|
  {
    if csqs == [] then Ok(flags)
    else
      var sofar :- ApplyAll(vf, csqs[..|csqs| - 1], flags, parseFloat);
      ApplyCsq(vf, csqs[|csqs| - 1], sofar, parseFloat)
  }

  /** `filter(record)`: one flag per alternate allele, true meaning the
      allele is filtered. */
  function FilterRecord(vf: VepFilter, rec: VepRecord, parseFloat: string -> Option<real>): Result<seq<bool>>
    requires vf.Valid()
  {
    ApplyAll(vf, rec.csqs, AllFiltered(AltCount(rec)), parseFloat)
  }

  /** `[True] * n`. */
  function AllFiltered(n: nat): (flags: seq<bool>)
    ensures |flags| == n && forall k :: 0 <= k < n ==> flags[k]
  {
    seq(n, _ => true)
  }

  lemma {:induction false} ApplyTermsKeepsError(vf: VepFilter, c: Csq, terms: seq<string>, i: nat, flags: seq<bool>,
                                                parseFloat: string -> Option<real>)
    requires vf.Valid() && i <= |terms|
    requires ApplyTerms(vf, c, terms[..i], flags, parseFloat).Err?
    ensures ApplyTerms(vf, c, terms, flags, parseFloat) == ApplyTerms(vf, c, terms[..i], flags, parseFloat)
    decreases |terms| - i
  {
    if i < |terms| {
      assert terms[..i + 1][..i] == terms[..i];
      ApplyTermsKeepsError(vf, c, terms, i + 1, flags, parseFloat);
    } else {
      assert terms[..i] == terms;
    }
  }

  lemma {:induction false} ApplyAllKeepsError(vf: VepFilter, csqs: seq<Csq>, i: nat, flags: seq<bool>,
                                              parseFloat: string -> Option<real>)
    requires vf.Valid() && i <= |csqs|
    requires ApplyAll(vf, csqs[..i], flags, parseFloat).Err?
    ensures ApplyAll(vf, csqs, flags, parseFloat) == ApplyAll(vf, csqs[..i], flags, parseFloat)
    decreases |csqs| - i
  {
    if i < |csqs| {
      assert csqs[..i + 1][..i] == csqs[..i];
      ApplyAllKeepsError(vf, csqs, i + 1, flags, parseFloat);
    } else {
      assert csqs[..i] == csqs;
    }
  }

  /** The inner loop of `filter` for one annotation that was not skipped
      (vape/vep_filter.py:59-66). */
  method ApplyConsequence(vf: VepFilter, c: Csq, flags0: seq<bool>, parseFloat: string -> Option<real>)
    returns (r: Result<seq<bool>>)
    requires vf.Valid()
    requires Skipped(vf, c) == Ok(false)
    ensures r == ApplyCsq(vf, c, flags0, parseFloat)
  {
    if "Consequence" !in c.fields {
      return Err(KeyError("Consequence"));
    }
    var terms := Split(c.fields["Consequence"], '&');
    var flags := flags0;
    var j := 0;
    while j < |terms|
      invariant j <= |terms|
      invariant ApplyTerms(vf, c, terms[..j], flags0, parseFloat) == Ok(flags)
    {
      assert terms[..j + 1][..j] == terms[..j];
      ApplyTermsStep(vf, c, terms[..j + 1], flags0, parseFloat);
      var next := ApplyConsequenceTerm(vf, c, terms[j], flags, parseFloat);
      if next.Err? {
        ApplyTermsKeepsError(vf, c, terms, j + 1, flags0, parseFloat);
        return Err(next.error);
      }
      flags := next.value;
      j := j + 1;
    }
    assert terms[..j] == terms;
    r := Ok(flags);
  }

  /** One term of an annotation (vape/vep_filter.py:60-66): a configured
      class writes its verdict to the annotation's allele. */
  method ApplyConsequenceTerm(vf: VepFilter, c: Csq, term: string, flags: seq<bool>,
                              parseFloat: string -> Option<real>) returns (r: Result<seq<bool>>)
    requires vf.Valid()
    ensures r == ApplyTerm(vf, c, term, flags, parseFloat)
  {
    if term !in vf.classes {
      return Ok(flags);
    }
    var verdict: Result<bool>;
    if vf.inSilico.Some? && term == "missense_variant" {
      verdict := InSilico.Filter(vf.inSilico.value, c.fields, parseFloat);
    } else {
      verdict := Ok(false);
    }
    if verdict.Err? {
      return Err(verdict.error);
    }
    var idx := c.altIndex - 1;
    if idx < -|flags| || idx >= |flags| {
      return Err(IndexError);
    }
    var i := if idx < 0 then |flags| + idx else idx;
    r := Ok(flags[i := verdict.value]);
  }

  /** The terms of one annotation in order, one more at the end. */
  lemma ApplyTermsStep(vf: VepFilter, c: Csq, terms: seq<string>, flags: seq<bool>, parseFloat: string -> Option<real>)
    requires vf.Valid() && terms != []
    ensures ApplyTerms(vf, c, terms, flags, parseFloat) ==
              match ApplyTerms(vf, c, terms[..|terms| - 1], flags, parseFloat)
              case Ok(sofar) => ApplyTerm(vf, c, terms[|terms| - 1], sofar, parseFloat)
              case Err(e) => Err(e)
  {
  }

  /** The body of the outer loop of `filter` for one annotation
      (vape/vep_filter.py:51-66): the two skips, then the terms. */
  method VisitAnnotation(vf: VepFilter, c: Csq, flags: seq<bool>, parseFloat: string -> Option<real>)
    returns (r: Result<seq<bool>>)
    requires vf.Valid()
    ensures r == ApplyCsq(vf, c, flags, parseFloat)
  {
    if vf.canonical && "CANONICAL" in c.fields && c.fields["CANONICAL"] != "YES" {
      return Ok(flags);
    }
    if "BIOTYPE" !in c.fields {
      return Err(KeyError("BIOTYPE"));
    }
    if c.fields["BIOTYPE"] !in vf.biotypes {
      return Ok(flags);
    }
    r := ApplyConsequence(vf, c, flags, parseFloat);
  }

  /** `VepFilter.filter` (vape/vep_filter.py:48-67): every flag starts
      true, and each qualifying term of each annotation that is not
      skipped overwrites the flag of its allele. */
  method Filter(vf: VepFilter, rec: VepRecord, parseFloat: string -> Option<real>) returns (r: Result<seq<bool>>)
    requires vf.Valid()
    ensures r == FilterRecord(vf, rec, parseFloat)
  {
    var init := AllFiltered(AltCount(rec));
    var flags := init;
    var csqs := rec.csqs;
    var i := 0;
    while i < |csqs|
      invariant i <= |csqs|
      invariant ApplyAll(vf, csqs[..i], init, parseFloat) == Ok(flags)
    {
      assert csqs[..i + 1][..i] == csqs[..i];
      ApplyAllStep(vf, csqs[..i + 1], init, parseFloat);
      var next := VisitAnnotation(vf, csqs[i], flags, parseFloat);
      if next.Err? {
        ApplyAllKeepsError(vf, csqs, i + 1, init, parseFloat);
        return Err(next.error);
      }
      flags := next.value;
      i := i + 1;
    }
    assert csqs[..i] == csqs;
    r := Ok(flags);
  }

  // ---------------------------------------------------------------------
  // Properties of the filter
  // ---------------------------------------------------------------------

  /** The result has one flag per alternate allele. */
  lemma FilterLength(vf: VepFilter, rec: VepRecord, parseFloat: string -> Option<real>)
    requires vf.Valid()
    requires FilterRecord(vf, rec, parseFloat).Ok?
    ensures |FilterRecord(vf, rec, parseFloat).value| == AltCount(rec)
  {
  }

  /** An annotation changes at most the flag of its own allele, so an
      allele no annotation points at keeps the flag it started with. */
  lemma {:induction false} ApplyAllUntouched(vf: VepFilter, csqs: seq<Csq>, flags: seq<bool>,
                                             parseFloat: string -> Option<real>, k: nat)
    requires vf.Valid() && k < |flags|
    requires ApplyAll(vf, csqs, flags, parseFloat).Ok?
    requires forall m :: 0 <= m < |csqs| ==> Target(|flags|, csqs[m]) != Some(k)
    ensures ApplyAll(vf, csqs, flags, parseFloat).value[k] == flags[k]
    decreases |csqs|
  {
    if csqs != [] {
      var init := csqs[..|csqs| - 1];
      forall m | 0 <= m < |init| ensures Target(|flags|, init[m]) != Some(k) {
        assert init[m] == csqs[m];
      }
      ApplyAllUntouched(vf, init, flags, parseFloat, k);
    }
  }

  /** An allele that no annotation points at stays filtered. */
  lemma UntouchedAlleleFiltered(vf: VepFilter, rec: VepRecord, parseFloat: string -> Option<real>, k: nat)
    requires vf.Valid() && k < AltCount(rec)
    requires FilterRecord(vf, rec, parseFloat).Ok?
    requires forall m :: 0 <= m < |rec.csqs| ==> Target(AltCount(rec), rec.csqs[m]) != Some(k)
    ensures FilterRecord(vf, rec, parseFloat).value[k]
  {
    ApplyAllUntouched(vf, rec.csqs, AllFiltered(AltCount(rec)), parseFloat, k);
  }

  /** In canonical-only mode an annotation whose `CANONICAL` is present
      and not `YES` changes nothing; a biotype outside the set changes
      nothing either. */
  lemma SkippedAnnotationChangesNothing(vf: VepFilter, c: Csq, flags: seq<bool>, parseFloat: string -> Option<real>)
    requires vf.Valid()
    requires (vf.canonical && "CANONICAL" in c.fields && c.fields["CANONICAL"] != "YES")
             || ("BIOTYPE" in c.fields && c.fields["BIOTYPE"] !in vf.biotypes)
    ensures ApplyCsq(vf, c, flags, parseFloat) == Ok(flags)
  {
  }

  /** In canonical-only mode an annotation without `CANONICAL` is not
      skipped for that reason: only its biotype decides. */
  lemma MissingCanonicalNotSkipped(vf: VepFilter, c: Csq)
    requires "CANONICAL" !in c.fields
    ensures Skipped(vf, c) == if "BIOTYPE" in c.fields then Ok(c.fields["BIOTYPE"] !in vf.biotypes)
                              else Err(KeyError("BIOTYPE"))
  {
  }

  /** Whether an annotation is one whose terms are applied and one of its
      terms is a configured class. */
  predicate Qualifies(vf: VepFilter, c: Csq) {
    && Skipped(vf, c) == Ok(false)
    && "Consequence" in c.fields
    && exists j :: 0 <= j < |Split(c.fields["Consequence"], '&')| &&
                   Split(c.fields["Consequence"], '&')[j] in vf.classes
  }

  /** Without an in silico filter, the terms of an annotation clear the
      flag of its allele exactly when one of them is a configured class. */
  lemma {:induction false} ApplyTermsWithoutInSilico(vf: VepFilter, c: Csq, terms: seq<string>, flags: seq<bool>,
                                                     parseFloat: string -> Option<real>, k: nat)
    requires vf.Valid() && vf.inSilico.None? && k < |flags|
    requires ApplyTerms(vf, c, terms, flags, parseFloat).Ok?
    ensures ApplyTerms(vf, c, terms, flags, parseFloat).value[k] ==
              (flags[k] && !(Target(|flags|, c) == Some(k) && exists j :: 0 <= j < |terms| && terms[j] in vf.classes))
    decreases |terms|
  {
    if terms != [] {
      var init := terms[..|terms| - 1];
      var last := terms[|terms| - 1];
      ApplyTermsWithoutInSilico(vf, c, init, flags, parseFloat, k);
      if exists j :: 0 <= j < |init| && init[j] in vf.classes {
        var j :| 0 <= j < |init| && init[j] in vf.classes;
        assert terms[j] == init[j];
      }
      if exists j :: 0 <= j < |terms| && terms[j] in vf.classes {
        var j :| 0 <= j < |terms| && terms[j] in vf.classes;
        if j < |init| {
          assert init[j] == terms[j];
        }
      }
    }
  }

  /** Without an in silico filter, an allele is kept (its flag false)
      exactly when it started false or some qualifying annotation points
      at it: annotations only ever clear flags. */
  lemma {:induction false} ApplyAllWithoutInSilico(vf: VepFilter, csqs: seq<Csq>, flags: seq<bool>,
                                                   parseFloat: string -> Option<real>, k: nat)
    requires vf.Valid() && vf.inSilico.None? && k < |flags|
    requires ApplyAll(vf, csqs, flags, parseFloat).Ok?
    ensures ApplyAll(vf, csqs, flags, parseFloat).value[k] ==
              (flags[k] && !exists m :: 0 <= m < |csqs| && Qualifies(vf, csqs[m]) && Target(|flags|, csqs[m]) == Some(k))
    decreases |csqs|
  {
    if csqs != [] {
      var init := csqs[..|csqs| - 1];
      var c := csqs[|csqs| - 1];
      ApplyAllWithoutInSilico(vf, init, flags, parseFloat, k);
      ApplyAllStep(vf, csqs, flags, parseFloat);
      var mid := ApplyAll(vf, init, flags, parseFloat).value;
      ApplyCsqWithoutInSilico(vf, c, mid, parseFloat, k);
      ExistsQualifying(vf, csqs, |flags|, k);
    }
  }

  /** One annotation without an in silico filter: the flag of allele `k`
      is cleared exactly when the annotation qualifies and points at it. */
  lemma ApplyCsqWithoutInSilico(vf: VepFilter, c: Csq, flags: seq<bool>, parseFloat: string -> Option<real>, k: nat)
    requires vf.Valid() && vf.inSilico.None? && k < |flags|
    requires ApplyCsq(vf, c, flags, parseFloat).Ok?
    ensures ApplyCsq(vf, c, flags, parseFloat).value[k] ==
              (flags[k] && !(Qualifies(vf, c) && Target(|flags|, c) == Some(k)))
  {
    if Skipped(vf, c) == Ok(false) {
      ApplyTermsWithoutInSilico(vf, c, Split(c.fields["Consequence"], '&'), flags, parseFloat, k);
    }
  }

  /** The annotations in order, one more at the end. */
  lemma ApplyAllStep(vf: VepFilter, csqs: seq<Csq>, flags: seq<bool>, parseFloat: string -> Option<real>)
    requires vf.Valid() && csqs != []
    ensures ApplyAll(vf, csqs, flags, parseFloat) ==
              match ApplyAll(vf, csqs[..|csqs| - 1], flags, parseFloat)
              case Ok(mid) => ApplyCsq(vf, csqs[|csqs| - 1], mid, parseFloat)
              case Err(e) => Err(e)
  {
  }

  lemma ExistsQualifying(vf: VepFilter, csqs: seq<Csq>, n: nat, k: nat)
    requires csqs != []
    ensures var init := csqs[..|csqs| - 1];
            var c := csqs[|csqs| - 1];
            (exists m :: 0 <= m < |csqs| && Qualifies(vf, csqs[m]) && Target(n, csqs[m]) == Some(k)) <==>
              (exists m :: 0 <= m < |init| && Qualifies(vf, init[m]) && Target(n, init[m]) == Some(k))
              || (Qualifies(vf, c) && Target(n, c) == Some(k))
  {
    var init := csqs[..|csqs| - 1];
    forall m | 0 <= m < |init| ensures init[m] == csqs[m] { }
  }

  /** The position of the last of `terms` that is a configured class. */
  function LastClassIndex(vf: VepFilter, terms: seq<string>): (r: Option<nat>)
    ensures r.None? <==> forall k :: 0 <= k < |terms| ==> terms[k] !in vf.classes
    ensures r.Some? ==> r.value < |terms| && terms[r.value] in vf.classes
    ensures r.Some? ==> forall m :: r.value < m < |terms| ==> terms[m] !in vf.classes
    decreases |terms|
  {
    if terms == [] then None
    else if terms[|terms| - 1] in vf.classes then Some(|terms| - 1)
    else LastClassIndex(vf, terms[..|terms| - 1])
  }

  /** Within one annotation, the last term that is a configured class
      decides the allele's flag: each such term overwrites it and the
      others leave it alone. */
  lemma {:induction false} ApplyTermsLastClass(vf: VepFilter, c: Csq, terms: seq<string>, flags: seq<bool>,
                                               parseFloat: string -> Option<real>)
    requires vf.Valid()
    requires ApplyTerms(vf, c, terms, flags, parseFloat).Ok?
    requires LastClassIndex(vf, terms).Some?
    ensures Target(|flags|, c).Some?
    ensures TermVerdict(vf, c, terms[LastClassIndex(vf, terms).value], parseFloat).Ok?
    ensures ApplyTerms(vf, c, terms, flags, parseFloat).value[Target(|flags|, c).value]
              == TermVerdict(vf, c, terms[LastClassIndex(vf, terms).value], parseFloat).value
    decreases |terms|
  {
    var n := |terms| - 1;
    ApplyTermsStep(vf, c, terms, flags, parseFloat);
    if terms[n] !in vf.classes {
      ApplyTermsLastClass(vf, c, terms[..n], flags, parseFloat);
      assert LastClassIndex(vf, terms) == LastClassIndex(vf, terms[..n]);
      assert terms[..n][LastClassIndex(vf, terms).value] == terms[LastClassIndex(vf, terms).value];
    }
  }

  /** The annotation processed last decides: whatever earlier annotations
      did, the last configured term of the last annotation leaves its
      verdict on that annotation's allele. */
  lemma LastAnnotationWins(vf: VepFilter, csqs: seq<Csq>, c: Csq, flags: seq<bool>,
                           parseFloat: string -> Option<real>)
    requires vf.Valid()
    requires Skipped(vf, c) == Ok(false) && "Consequence" in c.fields
    requires LastClassIndex(vf, Split(c.fields["Consequence"], '&')).Some?
    requires ApplyAll(vf, csqs + [c], flags, parseFloat).Ok?
    ensures Target(|flags|, c).Some?
    ensures var terms := Split(c.fields["Consequence"], '&');
            && TermVerdict(vf, c, terms[LastClassIndex(vf, terms).value], parseFloat).Ok?
            && ApplyAll(vf, csqs + [c], flags, parseFloat).value[Target(|flags|, c).value]
                 == TermVerdict(vf, c, terms[LastClassIndex(vf, terms).value], parseFloat).value
  {
    assert (csqs + [c])[..|csqs|] == csqs;
    var mid := ApplyAll(vf, csqs, flags, parseFloat).value;
    ApplyTermsLastClass(vf, c, Split(c.fields["Consequence"], '&'), mid, parseFloat);
  }

  /** An annotation with a single consequence term applies that term. */
  lemma ApplyCsqSingleTerm(vf: VepFilter, c: Csq, term: string, flags: seq<bool>, parseFloat: string -> Option<real>)
    requires vf.Valid()
    requires Skipped(vf, c) == Ok(false) && "Consequence" in c.fields && '&' !in c.fields["Consequence"]
    requires c.fields["Consequence"] == term
    ensures ApplyCsq(vf, c, flags, parseFloat) == ApplyTerm(vf, c, term, flags, parseFloat)
  {
    SplitWithoutSeparator(term, '&');
    assert [term][..0] == [];
    assert ApplyTerms(vf, c, [], flags, parseFloat) == Ok(flags);
    assert ApplyTerms(vf, c, [term], flags, parseFloat) == ApplyTerm(vf, c, term, flags, parseFloat);
  }

  /** Two annotations, one after the other. */
  lemma ApplyAllPair(vf: VepFilter, a: Csq, b: Csq, flags: seq<bool>, parseFloat: string -> Option<real>)
    requires vf.Valid()
    ensures ApplyAll(vf, [a, b], flags, parseFloat) ==
              match ApplyCsq(vf, a, flags, parseFloat)
              case Ok(mid) => ApplyCsq(vf, b, mid, parseFloat)
              case Err(e) => Err(e)
  {
    assert [a, b][..1] == [a] && [a][..0] == [];
    assert ApplyAll(vf, [], flags, parseFloat) == Ok(flags);
    assert ApplyAll(vf, [a], flags, parseFloat) == ApplyCsq(vf, a, flags, parseFloat);
  }

  lemma ApplyAllPairOk(vf: VepFilter, a: Csq, b: Csq, flags: seq<bool>, mid: seq<bool>, out: seq<bool>,
                       parseFloat: string -> Option<real>)
    requires vf.Valid()
    requires ApplyCsq(vf, a, flags, parseFloat) == Ok(mid) && ApplyCsq(vf, b, mid, parseFloat) == Ok(out)
    ensures ApplyAll(vf, [a, b], flags, parseFloat) == Ok(out)
  {
    ApplyAllPair(vf, a, b, flags, parseFloat);
  }

  /** A qualifying term with a verdict writes that verdict to its allele. */
  lemma ApplyTermWrites(vf: VepFilter, c: Csq, term: string, flags: seq<bool>, parseFloat: string -> Option<real>,
                        i: nat, v: bool)
    requires vf.Valid() && term in vf.classes
    requires TermVerdict(vf, c, term, parseFloat) == Ok(v) && Target(|flags|, c) == Some(i)
    ensures ApplyTerm(vf, c, term, flags, parseFloat) == Ok(flags[i := v])
  {
  }

  /** An annotation whose only term is not a configured class changes
      nothing. */
  lemma UnconfiguredTermChangesNothing(vf: VepFilter, c: Csq, term: string, flags: seq<bool>,
                                       parseFloat: string -> Option<real>)
    requires vf.Valid() && Skipped(vf, c) == Ok(false)
    requires "Consequence" in c.fields && c.fields["Consequence"] == term && '&' !in term
    requires term !in vf.classes
    ensures ApplyCsq(vf, c, flags, parseFloat) == Ok(flags)
  {
    ApplyCsqSingleTerm(vf, c, term, flags, parseFloat);
  }

  /** A `missense_variant` annotation that the in silico filter (if any)
      keeps clears the flag of its allele. */
  lemma KeptMissenseClears(vf: VepFilter, c: Csq, flags: seq<bool>, parseFloat: string -> Option<real>, i: nat)
    requires vf.Valid() && Skipped(vf, c) == Ok(false)
    requires "Consequence" in c.fields && c.fields["Consequence"] == "missense_variant"
    requires "missense_variant" in vf.classes
    requires vf.inSilico.Some? ==> Decide(vf.inSilico.value, c.fields, parseFloat) == Ok(false)
    requires Target(|flags|, c) == Some(i)
    ensures ApplyCsq(vf, c, flags, parseFloat) == Ok(flags[i := false])
  {
    assert '&' !in "missense_variant";
    ApplyCsqSingleTerm(vf, c, "missense_variant", flags, parseFloat);
    ApplyTermWrites(vf, c, "missense_variant", flags, parseFloat, i, false);
  }

  /** The situation of the two lemmas below, after the example of a
      `synonymous_variant` and a `missense_variant` annotation: an
      annotation `s` whose only term is not a configured class and a
      `missense_variant` annotation `m` that the in silico filter keeps,
      both for the same allele and neither skipped. */
  ghost predicate OtherAndMissense(vf: VepFilter, alleles: seq<string>, s: Csq, m: Csq,
                                   parseFloat: string -> Option<real>)
    requires vf.Valid()
  {
    && OtherAndMissenseCsqs(vf, s, m, parseFloat)
    && |alleles| >= 2 && s.altIndex == m.altIndex && 1 <= m.altIndex < |alleles|
  }

  /** The two annotations of the situation, whatever the record. */
  ghost predicate OtherAndMissenseCsqs(vf: VepFilter, s: Csq, m: Csq, parseFloat: string -> Option<real>)
    requires vf.Valid()
  {
    && Skipped(vf, s) == Ok(false) && Skipped(vf, m) == Ok(false)
    && "Consequence" in s.fields && '&' !in s.fields["Consequence"] && s.fields["Consequence"] !in vf.classes
    && "Consequence" in m.fields && m.fields["Consequence"] == "missense_variant"
    && "missense_variant" in vf.classes
    && (vf.inSilico.Some? ==> Decide(vf.inSilico.value, m.fields, parseFloat) == Ok(false))
  }

  /** The two annotations of the example in either order, on any flags
      in which `m` points at allele `i`. */
  lemma OtherFirst(vf: VepFilter, s: Csq, m: Csq, flags: seq<bool>, i: nat, parseFloat: string -> Option<real>)
    requires vf.Valid() && OtherAndMissenseCsqs(vf, s, m, parseFloat)
    requires Target(|flags|, m) == Some(i)
    ensures ApplyAll(vf, [s, m], flags, parseFloat) == Ok(flags[i := false])
  {
    UnconfiguredTermChangesNothing(vf, s, s.fields["Consequence"], flags, parseFloat);
    KeptMissenseClears(vf, m, flags, parseFloat, i);
    ApplyAllPairOk(vf, s, m, flags, flags, flags[i := false], parseFloat);
  }

  lemma MissenseFirst(vf: VepFilter, s: Csq, m: Csq, flags: seq<bool>, i: nat, parseFloat: string -> Option<real>)
    requires vf.Valid() && OtherAndMissenseCsqs(vf, s, m, parseFloat)
    requires Target(|flags|, m) == Some(i)
    ensures ApplyAll(vf, [m, s], flags, parseFloat) == Ok(flags[i := false])
  {
    var cleared := flags[i := false];
    KeptMissenseClears(vf, m, flags, parseFloat, i);
    UnconfiguredTermChangesNothing(vf, s, s.fields["Consequence"], cleared, parseFloat);
    ApplyAllPairOk(vf, m, s, flags, cleared, cleared, parseFloat);
  }

  /** `filter` on a record with at least one allele starts from one true
      flag per alternate allele. */
  lemma FilterRecordOf(vf: VepFilter, alleles: seq<string>, csqs: seq<Csq>, parseFloat: string -> Option<real>)
    requires vf.Valid() && |alleles| >= 1
    ensures FilterRecord(vf, VepRecord(alleles, csqs), parseFloat)
            == ApplyAll(vf, csqs, AllFiltered(|alleles| - 1), parseFloat)
  {
  }

  /** The other annotation first, then the missense one: the allele is
      kept. */
  lemma OtherThenMissense(vf: VepFilter, alleles: seq<string>, s: Csq, m: Csq,
                          parseFloat: string -> Option<real>)
    requires vf.Valid() && OtherAndMissense(vf, alleles, s, m, parseFloat)
    ensures FilterRecord(vf, VepRecord(alleles, [s, m]), parseFloat).Ok?
    ensures FilterRecord(vf, VepRecord(alleles, [s, m]), parseFloat).value[m.altIndex - 1] == false
  {
    var init := AllFiltered(|alleles| - 1);
    var i := m.altIndex - 1;
    assert Target(|init|, m) == Some(i);
    OtherFirst(vf, s, m, init, i, parseFloat);
    FilterRecordOf(vf, alleles, [s, m], parseFloat);
    assert FilterRecord(vf, VepRecord(alleles, [s, m]), parseFloat) == Ok(init[i := false]);
  }

  /** The missense annotation first, then the other one: the allele is
      still kept. */
  lemma MissenseThenOther(vf: VepFilter, alleles: seq<string>, s: Csq, m: Csq,
                          parseFloat: string -> Option<real>)
    requires vf.Valid() && OtherAndMissense(vf, alleles, s, m, parseFloat)
    ensures FilterRecord(vf, VepRecord(alleles, [m, s]), parseFloat).Ok?
    ensures FilterRecord(vf, VepRecord(alleles, [m, s]), parseFloat).value[m.altIndex - 1] == false
  {
    var init := AllFiltered(|alleles| - 1);
    var i := m.altIndex - 1;
    assert Target(|init|, m) == Some(i);
    MissenseFirst(vf, s, m, init, i, parseFloat);
    FilterRecordOf(vf, alleles, [m, s], parseFloat);
    assert FilterRecord(vf, VepRecord(alleles, [m, s]), parseFloat) == Ok(init[i := false]);
  }
}
