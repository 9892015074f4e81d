/** `InSilicoFilter` (vape/insilico_filter.py:8-192): the configured in
    silico programs and the decision whether one missense consequence is
    filtered.

    Construction resolves configuration tokens, each `prog` or
    `prog=value`, against the registry: numeric programs get a threshold in
    `score_filters`, categorical programs a label collection in
    `pred_filters`.  Both are dicts, so the order in which `filter` visits
    them is the order in which each program was first configured; the model
    keeps that order next to each map. */
module InSilico {
  import opened Outcomes
  import opened Text
  import opened InSilicoRegistry

  /** The damaging labels of a categorical program: the registry's
      `default` list for a bare name, or a set built by an override
      (`set(pred)`, the set of the override's characters). */
  datatype Labels = Listed(items: seq<string>) | CharSet(members: set<string>) {
    predicate Has(candidate: string) {
      match this
      case Listed(items) => candidate in items
      case CharSet(members) => candidate in members
    }
  }

  /** The state an `InSilicoFilter` holds after construction. */
  datatype InSilicoFilter = InSilicoFilter(
    predOrder: seq<string>,
    predFilters: map<string, Labels>,
    scoreOrder: seq<string>,
    scoreFilters: map<string, real>,
    lowerMoreDamaging: set<string>,
    filterUnpredicted: bool,
    keepIfAnyDamaging: bool)
  {
    /** Each order lists the keys of its dict, each key once. */
    ghost predicate Valid() {
      && (forall i, j :: 0 <= i < j < |predOrder| ==> predOrder[i] != predOrder[j])
      && (forall p :: p in predOrder <==> p in predFilters)
      && (forall i, j :: 0 <= i < j < |scoreOrder| ==> scoreOrder[i] != scoreOrder[j])
      && (forall p :: p in scoreOrder <==> p in scoreFilters)
    }
  }

  /** `self.pred_filters[prog] = labels`: a new key goes last, an existing
      key keeps its place. */
  function PutPred(f: InSilicoFilter, prog: string, labels: Labels): (g: InSilicoFilter)
    requires f.Valid()
    ensures g.Valid()
    ensures g.predFilters == f.predFilters[prog := labels]
    ensures g.predOrder == if prog in f.predFilters then f.predOrder else f.predOrder + [prog]
    ensures g.scoreOrder == f.scoreOrder && g.scoreFilters == f.scoreFilters
    ensures g.lowerMoreDamaging == f.lowerMoreDamaging
    ensures g.filterUnpredicted == f.filterUnpredicted && g.keepIfAnyDamaging == f.keepIfAnyDamaging
  {
    f.(predOrder := if prog in f.predFilters then f.predOrder else f.predOrder + [prog],
       predFilters := f.predFilters[prog := labels])
  }

  /** `self.score_filters[prog] = threshold`. */
  function PutScore(f: InSilicoFilter, prog: string, threshold: real): (g: InSilicoFilter)
    requires f.Valid()
    ensures g.Valid()
    ensures g.scoreFilters == f.scoreFilters[prog := threshold]
    ensures g.scoreOrder == if prog in f.scoreFilters then f.scoreOrder else f.scoreOrder + [prog]
    ensures g.predOrder == f.predOrder && g.predFilters == f.predFilters
    ensures g.lowerMoreDamaging == f.lowerMoreDamaging
    ensures g.filterUnpredicted == f.filterUnpredicted && g.keepIfAnyDamaging == f.keepIfAnyDamaging
  {
    f.(scoreOrder := if prog in f.scoreFilters then f.scoreOrder else f.scoreOrder + [prog],
       scoreFilters := f.scoreFilters[prog := threshold])
  }

  /** The program name of a token: the text before the first `=`. */
  function TokenName(token: string): string {
    Split(token, '=')[0]
  }

  /** The override of a token: the text between its first and second `=`. */
  function TokenValue(token: string): Option<string> {
    var parts := Split(token, '=');
    if |parts| > 1 then Some(parts[1]) else None
  }

  /** `set(pred)`: the one-character strings of `value`. */
  function Chars(value: string): (s: set<string>)
    ensures forall x :: x in s ==> |x| == 1
  {
    set k | 0 <= k < |value| :: [value[k]]
  }

  /** `prog=value` for a program `prog` of the registry. */
  function Override(f: InSilicoFilter, prog: string, entry: Predictor, value: string,
                    parseFloat: string -> Option<real>): (r: Result<InSilicoFilter>)
    requires f.Valid()
    ensures r.Ok? ==> r.value.Valid()
    ensures r.Ok? && entry.Numeric? ==>
              r.value.predFilters == f.predFilters && r.value.scoreFilters.Keys == f.scoreFilters.Keys + {prog}
    ensures r.Ok? && entry.Categorical? ==>
              && prog in f.predFilters
              && r.value.scoreFilters == f.scoreFilters && r.value.predFilters.Keys == f.predFilters.Keys
    ensures r.Ok? ==> r.value.lowerMoreDamaging == f.lowerMoreDamaging
                      && r.value.filterUnpredicted == f.filterUnpredicted
                      && r.value.keepIfAnyDamaging == f.keepIfAnyDamaging
  {
    match entry
    case Numeric(_) =>
      (match parseFloat(value)
       case Some(x) => Ok(PutScore(f, prog, x))
       case None => Err(NonNumericScore(prog, value)))
    case Categorical(kinds) =>
      if "default" !in kinds then Err(KeyError("default"))
      else if value !in kinds["default"] && "valid" !in kinds then Err(KeyError("valid"))
      else if value in kinds["default"] || value in kinds["valid"] then
        if prog !in f.predFilters then Err(KeyError(prog))
        else if f.predFilters[prog].Has(prog) then
          (match f.predFilters[prog]
           case Listed(_) => Err(AttributeError)
           case CharSet(members) => Ok(PutPred(f, prog, CharSet(members + {value}))))
        else Ok(PutPred(f, prog, CharSet(Chars(value))))
      else Err(UnrecognisedPrediction(prog, value))
  }

  /** One configuration token (vape/insilico_filter.py:108-142). */
  function ResolveToken(reg: Registry, f: InSilicoFilter, token: string,
                        parseFloat: string -> Option<real>): (r: Result<InSilicoFilter>)
    requires Valid(reg) && f.Valid()
    ensures r.Ok? ==> r.value.Valid()
    ensures r.Ok? ==> Lower(TokenName(token)) in reg.caseInsensitive
    ensures r.Ok? && ConfiguredFrom(reg, f) ==> ConfiguredFrom(reg, r.value)
    ensures r.Ok? ==> r.value.filterUnpredicted == f.filterUnpredicted
                      && r.value.keepIfAnyDamaging == f.keepIfAnyDamaging
  {
    var name := TokenName(token);
    if Lower(name) !in reg.caseInsensitive then Err(UnknownProgram(name))
    else
      var prog := reg.caseInsensitive[Lower(name)];
      match TokenValue(token)
      case Some(value) => Override(f, prog, reg.programs[prog], value, parseFloat)
      case None =>
        match reg.programs[prog]
        case Numeric(threshold) => Ok(PutScore(f, prog, threshold))
        case Categorical(kinds) =>
          if "default" in kinds then Ok(PutPred(f, prog, Listed(kinds["default"])))
          else Err(KeyError("default"))
  }

  /** Whether `p` has a filter of either kind. */
  predicate Configures(f: InSilicoFilter, p: string) {
    p in f.predFilters || p in f.scoreFilters
  }

  /** A program is configured after a token exactly when it was
      configured before it or is the program the token names. */
  lemma ResolveTokenAddsItsProgram(reg: Registry, f: InSilicoFilter, token: string,
                                   parseFloat: string -> Option<real>, p: string)
    requires Valid(reg) && f.Valid()
    requires ResolveToken(reg, f, token, parseFloat).Ok?
    ensures Configures(ResolveToken(reg, f, token, parseFloat).value, p) <==>
              Configures(f, p) || p == ProgramOf(reg, token)
  {
    var prog := reg.caseInsensitive[Lower(TokenName(token))];
    assert ProgramOf(reg, token) == prog;
    var r := ResolveToken(reg, f, token, parseFloat);
    match TokenValue(token)
    case Some(value) =>
      assert r == Override(f, prog, reg.programs[prog], value, parseFloat);
      OverrideConfigures(f, prog, reg.programs[prog], value, parseFloat, p);
    case None =>
      match reg.programs[prog]
      case Numeric(threshold) =>
        assert r == Ok(PutScore(f, prog, threshold));
      case Categorical(kinds) =>
        assert r == Ok(PutPred(f, prog, Listed(kinds["default"])));
  }

  /** An override configures its own program and no other. */
  lemma OverrideConfigures(f: InSilicoFilter, prog: string, entry: Predictor, value: string,
                           parseFloat: string -> Option<real>, p: string)
    requires f.Valid()
    requires Override(f, prog, entry, value, parseFloat).Ok?
    ensures Configures(Override(f, prog, entry, value, parseFloat).value, p) <==> Configures(f, p) || p == prog
  {
  }

  /** Every configured program is a registry program of the matching kind,
      and the `lower_more_damaging` set is the registry's. */
  predicate ConfiguredFrom(reg: Registry, f: InSilicoFilter) {
    && (forall p :: p in f.predFilters ==> p in reg.programs && reg.programs[p].Categorical?)
    && (forall p :: p in f.scoreFilters ==> p in reg.programs && reg.programs[p].Numeric?)
    && f.lowerMoreDamaging == reg.lowerMoreDamaging
  }

  /** The tokens in order; the first failing token ends construction. */
  function Resolve(reg: Registry, tokens: seq<string>, f0: InSilicoFilter,
                   parseFloat: string -> Option<real>): (r: Result<InSilicoFilter>)
    requires Valid(reg) && f0.Valid()
    ensures r.Ok? ==> r.value.Valid()
    ensures r.Ok? && ConfiguredFrom(reg, f0) ==> ConfiguredFrom(reg, r.value)
    ensures r.Ok? ==> r.value.filterUnpredicted == f0.filterUnpredicted
                      && r.value.keepIfAnyDamaging == f0.keepIfAnyDamaging
    ensures r.Ok? ==> NamesKnown(reg, tokens)
    decreases |tokens|
  {
    if tokens == [] then Ok(f0)
    else
      var init := tokens[..|tokens| - 1];
      var f :- Resolve(reg, init, f0, parseFloat);
      var r := ResolveToken(reg, f, tokens[|tokens| - 1], parseFloat);
      if r.Ok? then NamesKnownAppend(reg, tokens); r else r
  }

  /** Every token names a registry program. */
  predicate NamesKnown(reg: Registry, tokens: seq<string>) {
    forall k :: 0 <= k < |tokens| ==> Lower(TokenName(tokens[k])) in reg.caseInsensitive
  }

  lemma NamesKnownAppend(reg: Registry, tokens: seq<string>)
    requires tokens != [] && NamesKnown(reg, tokens[..|tokens| - 1])
    requires Lower(TokenName(tokens[|tokens| - 1])) in reg.caseInsensitive
    ensures NamesKnown(reg, tokens)
  {
    var init := tokens[..|tokens| - 1];
    forall k | 0 <= k < |tokens| ensures Lower(TokenName(tokens[k])) in reg.caseInsensitive {
      if k < |init| {
        assert tokens[k] == init[k];
      }
    }
  }

  /** The filter before any token is resolved. */
  function Unconfigured(reg: Registry, filterUnpredicted: bool, keepIfAnyDamaging: bool): (f: InSilicoFilter)
    ensures f.Valid() && ConfiguredFrom(reg, f)
  {
    InSilicoFilter([], map[], [], map[], reg.lowerMoreDamaging, filterUnpredicted, keepIfAnyDamaging)
  }

  /** `InSilicoFilter(programs, filter_unpredicted, keep_if_any_damaging)`
      with the registry table given as its lines. */
  function Build(lines: seq<string>, tokens: seq<string>, filterUnpredicted: bool, keepIfAnyDamaging: bool,
                 parseFloat: string -> Option<real>): (r: Result<InSilicoFilter>)
    ensures r.Ok? ==> r.value.Valid()
    ensures r.Ok? ==> r.value.filterUnpredicted == filterUnpredicted
                      && r.value.keepIfAnyDamaging == keepIfAnyDamaging
  {
    var reg :- Load(lines, parseFloat);
    Resolve(reg, tokens, Unconfigured(reg, filterUnpredicted, keepIfAnyDamaging), parseFloat)
  }

  lemma {:induction false} ResolveKeepsError(reg: Registry, tokens: seq<string>, i: nat, f0: InSilicoFilter,
                                             parseFloat: string -> Option<real>)
    requires Valid(reg) && f0.Valid()
    requires i <= |tokens|
    requires Resolve(reg, tokens[..i], f0, parseFloat).Err?
    ensures Resolve(reg, tokens, f0, parseFloat) == Resolve(reg, tokens[..i], f0, parseFloat)
    decreases |tokens| - i
  {
    if i < |tokens| {
      assert tokens[..i + 1][..i] == tokens[..i];
      ResolveKeepsError(reg, tokens, i + 1, f0, parseFloat);
    } else {
      assert tokens[..i] == tokens;
    }
  }

  /** The registry program a token names, once its name is known. */
  function ProgramOf(reg: Registry, token: string): string {
    var key := Lower(TokenName(token));
    if key in reg.caseInsensitive then reg.caseInsensitive[key] else ""
  }

  /** The programs a sequence of tokens names, in the registry's spelling. */
  function NamedPrograms(reg: Registry, tokens: seq<string>): (ps: set<string>)
    ensures forall p :: p in ps <==> exists k :: 0 <= k < |tokens| && ProgramOf(reg, tokens[k]) == p
    decreases |tokens|
  {
    if tokens == [] then {}
    else
      var init := tokens[..|tokens| - 1];
      var ps := NamedPrograms(reg, init) + {ProgramOf(reg, tokens[|tokens| - 1])};
      assert forall p :: p in ps <==> exists k :: 0 <= k < |tokens| && ProgramOf(reg, tokens[k]) == p by {
        forall p ensures p in ps <==> exists k :: 0 <= k < |tokens| && ProgramOf(reg, tokens[k]) == p {
          if p in NamedPrograms(reg, init) {
            var k :| 0 <= k < |init| && ProgramOf(reg, init[k]) == p;
            assert tokens[k] == init[k];
          }
          if exists k :: 0 <= k < |tokens| && ProgramOf(reg, tokens[k]) == p {
            var k :| 0 <= k < |tokens| && ProgramOf(reg, tokens[k]) == p;
            if k < |init| {
              assert init[k] == tokens[k];
            }
          }
        }
      }
      ps
  }

  /** The programs a successful construction configures are exactly the
      programs its tokens name (after case-insensitive lookup), besides
      those configured before. */
  lemma {:induction false} ResolveConfiguresExactly(reg: Registry, tokens: seq<string>, f0: InSilicoFilter,
                                                    parseFloat: string -> Option<real>, p: string)
    requires Valid(reg) && f0.Valid()
    requires Resolve(reg, tokens, f0, parseFloat).Ok?
    ensures Configures(Resolve(reg, tokens, f0, parseFloat).value, p) <==>
              Configures(f0, p) || p in NamedPrograms(reg, tokens)
    decreases |tokens|
  {
    if tokens != [] {
      var init := tokens[..|tokens| - 1];
      var last := tokens[|tokens| - 1];
      ResolveConfiguresExactly(reg, init, f0, parseFloat, p);
      var f := Resolve(reg, init, f0, parseFloat).value;
      assert Resolve(reg, tokens, f0, parseFloat) == ResolveToken(reg, f, last, parseFloat);
      ResolveTokenAddsItsProgram(reg, f, last, parseFloat, p);
    }
  }

  /** Program names are looked up case-insensitively: two tokens that name
      the same registry program in different cases, with the same override,
      configure the same filter. */
  lemma ResolveTokenIgnoresCase(reg: Registry, f: InSilicoFilter, t1: string, t2: string,
                                parseFloat: string -> Option<real>)
    requires Valid(reg) && f.Valid()
    requires Lower(TokenName(t1)) == Lower(TokenName(t2)) && TokenValue(t1) == TokenValue(t2)
    requires Lower(TokenName(t1)) in reg.caseInsensitive
    ensures ResolveToken(reg, f, t1, parseFloat) == ResolveToken(reg, f, t2, parseFloat)
  {
  }

  /** An unknown program name is refused, naming the token's program. */
  lemma ResolveTokenRejectsUnknown(reg: Registry, f: InSilicoFilter, token: string,
                                   parseFloat: string -> Option<real>)
    requires Valid(reg) && f.Valid()
    requires Lower(TokenName(token)) !in reg.caseInsensitive
    ensures ResolveToken(reg, f, token, parseFloat) == Err(UnknownProgram(TokenName(token)))
  {
  }

  /** A bare program name configures the registry's defaults: the default
      threshold of a numeric program, the `default` label list of a
      categorical one (which must have one). */
  lemma ResolveBareName(reg: Registry, f: InSilicoFilter, token: string, parseFloat: string -> Option<real>)
    requires Valid(reg) && f.Valid()
    requires '=' !in token && Lower(token) in reg.caseInsensitive
    ensures
      var prog := reg.caseInsensitive[Lower(token)];
      var r := ResolveToken(reg, f, token, parseFloat);
      match reg.programs[prog]
      case Numeric(threshold) => r.Ok? && prog in r.value.scoreFilters && r.value.scoreFilters[prog] == threshold
      case Categorical(kinds) =>
        if "default" in kinds then
          r.Ok? && prog in r.value.predFilters && r.value.predFilters[prog] == Listed(kinds["default"])
        else r == Err(KeyError("default"))
  {
    SplitWithoutSeparator(token, '=');
  }

  /** `prog=value` for a numeric program sets its threshold to the value,
      which must be a number. */
  lemma ResolveScoreOverride(reg: Registry, f: InSilicoFilter, name: string, value: string,
                             parseFloat: string -> Option<real>)
    requires Valid(reg) && f.Valid()
    requires '=' !in name && '=' !in value && Lower(name) in reg.caseInsensitive
    requires reg.programs[reg.caseInsensitive[Lower(name)]].Numeric?
    ensures
      var prog := reg.caseInsensitive[Lower(name)];
      var r := ResolveToken(reg, f, name + "=" + value, parseFloat);
      match parseFloat(value)
      case Some(x) => r.Ok? && prog in r.value.scoreFilters && r.value.scoreFilters[prog] == x
      case None => r == Err(NonNumericScore(prog, value))
  {
    TokenOfOverride(name, value);
  }

  /** `prog=value` for a categorical program: a value that is neither a
      `default` nor a `valid` label is refused; an acceptable value on a
      program not configured by an earlier token fails the lookup of
      `pred_filters[prog]`; otherwise, unless the program already holds its
      own name as a label, its labels become the SET OF CHARACTERS of the
      value, as `set(pred)` builds it. */
  lemma ResolvePredOverride(reg: Registry, f: InSilicoFilter, name: string, value: string,
                            parseFloat: string -> Option<real>)
    requires Valid(reg) && f.Valid()
    requires '=' !in name && '=' !in value && Lower(name) in reg.caseInsensitive
    requires reg.programs[reg.caseInsensitive[Lower(name)]].Categorical?
    requires "default" in reg.programs[reg.caseInsensitive[Lower(name)]].kinds
    requires "valid" in reg.programs[reg.caseInsensitive[Lower(name)]].kinds
    ensures
      var prog := reg.caseInsensitive[Lower(name)];
      var kinds := reg.programs[prog].kinds;
      var r := ResolveToken(reg, f, name + "=" + value, parseFloat);
      if value !in kinds["default"] && value !in kinds["valid"] then r == Err(UnrecognisedPrediction(prog, value))
      else if prog !in f.predFilters then r == Err(KeyError(prog))
      else !f.predFilters[prog].Has(prog) ==> r.Ok? && prog in r.value.predFilters && r.value.predFilters[prog] == CharSet(Chars(value))
  {
    TokenOfOverride(name, value);
  }

  /** The name and the override of `name=value`. */
  lemma TokenOfOverride(name: string, value: string)
    requires '=' !in name && '=' !in value
    ensures TokenName(name + "=" + value) == name && TokenValue(name + "=" + value) == Some(value)
  {
    var t := "=" + value;
    assert t[0] == '=' && t[1..] == value;
    SplitWithoutSeparator(value, '=');
    assert Split(t, '=') == [""] + [value];
    SplitSeparatorFreePrefix(name, t, '=');
    assert name + "=" + value == name + t;
    assert name + "" == name;
  }

  /** The constructor (vape/insilico_filter.py:19-142): load the registry,
      then resolve the tokens one by one into the two filter tables. */
  method NewInSilicoFilter(lines: seq<string>, tokens: seq<string>, filterUnpredicted: bool,
                           keepIfAnyDamaging: bool, parseFloat: string -> Option<real>)
    returns (r: Result<InSilicoFilter>)
    ensures r == Build(lines, tokens, filterUnpredicted, keepIfAnyDamaging, parseFloat)
  {
    var loaded := LoadRegistry(lines, parseFloat);
    if loaded.Err? {
      return Err(loaded.error);
    }
    var reg := loaded.value;
    ghost var f0 := Unconfigured(reg, filterUnpredicted, keepIfAnyDamaging);
    var f := Unconfigured(reg, filterUnpredicted, keepIfAnyDamaging);
    var i := 0;
    while i < |tokens|
      invariant i <= |tokens|
      invariant f.Valid()
      invariant Resolve(reg, tokens[..i], f0, parseFloat) == Ok(f)
    {
      assert tokens[..i + 1][..i] == tokens[..i];
      var next := ResolveToken(reg, f, tokens[i], parseFloat);
      if next.Err? {
        ResolveKeepsError(reg, tokens, i + 1, f0, parseFloat);
        return Err(next.error);
      }
      f := next.value;
      i := i + 1;
    }
    assert tokens[..i] == tokens;
    r := Ok(f);
  }

  // ---------------------------------------------------------------------
  // The decision for one consequence (vape/insilico_filter.py:144-192)
  // ---------------------------------------------------------------------

  /** What one program says about a consequence: no prediction (empty
      value), damaging (some `&`-separated sub-value matches) or benign. */
  datatype Vote = Unpredicted | Damaging | Benign

  /** A categorical program matches when a sub-value, with its bracketed
      scores removed, is one of its labels. */
  function CategoricalVote(labels: Labels, value: string): Vote {
    if value == "" then Unpredicted
    else
      var parts := Split(value, '&');
      if exists k :: 0 <= k < |parts| && labels.Has(StripScores(parts[k])) then Damaging
      else Benign
  }

  /** Damaging side of a numeric threshold. */
  predicate MeetsThreshold(x: real, threshold: real, lowerIsDamaging: bool) {
    if lowerIsDamaging then x <= threshold else x >= threshold
  }

  /** A numeric program matches when a sub-value converts to a number on
      the damaging side of its threshold; other sub-values are ignored. */
  function NumericVote(threshold: real, lowerIsDamaging: bool, value: string,
                       parseFloat: string -> Option<real>): Vote
  {
    if value == "" then Unpredicted
    else
      var parts := Split(value, '&');
      if exists k :: 0 <= k < |parts| && parseFloat(parts[k]).Some?
                     && MeetsThreshold(parseFloat(parts[k]).value, threshold, lowerIsDamaging)
      then Damaging
      else Benign
  }

  /** What `filter` does after a program's vote: return this verdict at
      once, or (None) go on with the next program. */
  function Decision(v: Vote, filterUnpredicted: bool, keepIfAnyDamaging: bool): Option<bool> {
    match v
    case Unpredicted => if filterUnpredicted then Some(true) else None
    case Damaging => if keepIfAnyDamaging then Some(false) else None
    case Benign => Some(true)
  }

  /** A configured program as `filter` visits it. */
  datatype Configured =
    | CategoricalProgram(name: string, labels: Labels)
    | NumericProgram(name: string, threshold: real, lowerIsDamaging: bool)

  function VoteOf(p: Configured, value: string, parseFloat: string -> Option<real>): Vote {
    match p
    case CategoricalProgram(_, labels) => CategoricalVote(labels, value)
    case NumericProgram(_, threshold, lower) => NumericVote(threshold, lower, value, parseFloat)
  }

  /** The categorical programs, in `pred_filters` order. */
  function PredPrograms(f: InSilicoFilter): (ps: seq<Configured>)
    requires f.Valid()
    ensures |ps| == |f.predOrder|
    ensures forall k :: 0 <= k < |ps| ==>
              ps[k] == CategoricalProgram(f.predOrder[k], f.predFilters[f.predOrder[k]])
  {
    seq(|f.predOrder|, k requires 0 <= k < |f.predOrder| =>
          CategoricalProgram(f.predOrder[k], f.predFilters[f.predOrder[k]]))
  }

  /** The numeric programs, in `score_filters` order. */
  function ScorePrograms(f: InSilicoFilter): (ps: seq<Configured>)
    requires f.Valid()
    ensures |ps| == |f.scoreOrder|
    ensures forall k :: 0 <= k < |ps| ==>
              ps[k] == NumericProgram(f.scoreOrder[k], f.scoreFilters[f.scoreOrder[k]],
                                      f.scoreOrder[k] in f.lowerMoreDamaging)
  {
    seq(|f.scoreOrder|, k requires 0 <= k < |f.scoreOrder| =>
          NumericProgram(f.scoreOrder[k], f.scoreFilters[f.scoreOrder[k]],
                         f.scoreOrder[k] in f.lowerMoreDamaging))
  }

  /** The programs in visiting order: every categorical program in
      `pred_filters` order, then every numeric one in `score_filters` order. */
  function Programs(f: InSilicoFilter): seq<Configured>
    requires f.Valid()
  {
    PredPrograms(f) + ScorePrograms(f)
  }

  /** One program's turn: a lookup failure, a verdict returned at once
      (Some), or nothing (None) when `filter` goes on with the next program. */
  function Turn(p: Configured, csq: map<string, string>, filterUnpredicted: bool,
                keepIfAnyDamaging: bool, parseFloat: string -> Option<real>): Option<Result<bool>>
  {
    if p.name !in csq then Some(Err(KeyError(p.name)))
    else match Decision(VoteOf(p, csq[p.name], parseFloat), filterUnpredicted, keepIfAnyDamaging)
      case Some(verdict) => Some(Ok(verdict))
      case None => None
  }

  /** Visit the programs in order; the first one whose vote decides gives
      the verdict, and a consequence no program decides is kept.  A program
      missing from the consequence fails the lookup. */
  function Scan(ps: seq<Configured>, csq: map<string, string>, filterUnpredicted: bool,
                keepIfAnyDamaging: bool, parseFloat: string -> Option<real>): Result<bool>
    decreases |ps|
  {
    if ps == [] then Ok(false)
    else match Turn(ps[0], csq, filterUnpredicted, keepIfAnyDamaging, parseFloat)
      case Some(r) => r
      case None => Scan(ps[1..], csq, filterUnpredicted, keepIfAnyDamaging, parseFloat)
  }

  /** `f.filter(csq)`: true means the consequence is filtered. */
  function Decide(f: InSilicoFilter, csq: map<string, string>, parseFloat: string -> Option<real>): Result<bool>
    requires f.Valid()
  {
    Scan(Programs(f), csq, f.filterUnpredicted, f.keepIfAnyDamaging, parseFloat)
  }

  /** The inner loop over a categorical program's sub-values
      (vape/insilico_filter.py:157-162): `do_filter` starts true and the
      first sub-value that is a label clears it. */
  method CategoricalDoFilter(labels: Labels, value: string) returns (doFilter: bool)
    requires value != ""
    ensures doFilter <==> CategoricalVote(labels, value) == Benign
  {
    var parts := Split(value, '&');
    doFilter := true;
    var j := 0;
    while j < |parts|
      invariant j <= |parts|
      invariant doFilter
      invariant forall k :: 0 <= k < j ==> !labels.Has(StripScores(parts[k]))
    {
      var p := StripScores(parts[j]);
      if labels.Has(p) {
        doFilter := false;
        break;
      }
      j := j + 1;
    }
  }

  /** The inner loop over a numeric program's sub-values
      (vape/insilico_filter.py:174-187): sub-values that do not convert are
      skipped, and the first one on the damaging side clears `do_filter`. */
  method NumericDoFilter(threshold: real, lower: bool, value: string, parseFloat: string -> Option<real>)
    returns (doFilter: bool)
    requires value != ""
    ensures doFilter <==> NumericVote(threshold, lower, value, parseFloat) == Benign
  {
    var parts := Split(value, '&');
    doFilter := true;
    var j := 0;
    while j < |parts|
      invariant j <= |parts|
      invariant doFilter
      invariant forall k :: 0 <= k < j ==>
                  !(parseFloat(parts[k]).Some? && MeetsThreshold(parseFloat(parts[k]).value, threshold, lower))
    {
      var score := parseFloat(parts[j]);
      if score.None? {
        j := j + 1;
        continue;
      }
      if lower {
        if score.value <= threshold {
          doFilter := false;
          break;
        }
      } else {
        if score.value >= threshold {
          doFilter := false;
          break;
        }
      }
      j := j + 1;
    }
  }

  /** The verdict of the first program in `ps` whose turn decides, if any. */
  function FirstVerdict(ps: seq<Configured>, csq: map<string, string>, filterUnpredicted: bool,
                        keepIfAnyDamaging: bool, parseFloat: string -> Option<real>): Option<Result<bool>>
    decreases |ps|
  {
    if ps == [] then None
    else match Turn(ps[0], csq, filterUnpredicted, keepIfAnyDamaging, parseFloat)
      case Some(r) => Some(r)
      case None => FirstVerdict(ps[1..], csq, filterUnpredicted, keepIfAnyDamaging, parseFloat)
  }

  /** Scanning two lists one after the other: the first list's verdict if
      it has one, otherwise the scan of the second. */
  lemma {:induction false} ScanAppend(xs: seq<Configured>, ys: seq<Configured>, csq: map<string, string>,
                                      filterUnpredicted: bool, keepIfAnyDamaging: bool,
                                      parseFloat: string -> Option<real>)
    ensures Scan(xs + ys, csq, filterUnpredicted, keepIfAnyDamaging, parseFloat) ==
              match FirstVerdict(xs, csq, filterUnpredicted, keepIfAnyDamaging, parseFloat)
              case Some(r) => r
              case None => Scan(ys, csq, filterUnpredicted, keepIfAnyDamaging, parseFloat)
    decreases |xs|
  {
    if xs == [] {
      assert xs + ys == ys;
    } else {
      assert (xs + ys)[0] == xs[0] && (xs + ys)[1..] == xs[1..] + ys;
      ScanAppend(xs[1..], ys, csq, filterUnpredicted, keepIfAnyDamaging, parseFloat);
    }
  }

  /** One step of the search for a verdict, from position `i`. */
  lemma FirstVerdictFrom(ps: seq<Configured>, i: nat, csq: map<string, string>, filterUnpredicted: bool,
                         keepIfAnyDamaging: bool, parseFloat: string -> Option<real>)
    requires i < |ps|
    ensures FirstVerdict(ps[i..], csq, filterUnpredicted, keepIfAnyDamaging, parseFloat) ==
              match Turn(ps[i], csq, filterUnpredicted, keepIfAnyDamaging, parseFloat)
              case Some(r) => Some(r)
              case None => FirstVerdict(ps[i + 1..], csq, filterUnpredicted, keepIfAnyDamaging, parseFloat)
  {
    assert ps[i..][0] == ps[i] && ps[i..][1..] == ps[i + 1..];
  }

  /** The body of either loop of `filter` for one program: look its value
      up, compute `do_filter`, and either return a verdict (Some) or go on
      with the next program (None). */
  method Visit(p: Configured, csq: map<string, string>, filterUnpredicted: bool, keepIfAnyDamaging: bool,
               parseFloat: string -> Option<real>)
    returns (out: Option<Result<bool>>)
    ensures out == Turn(p, csq, filterUnpredicted, keepIfAnyDamaging, parseFloat)
  {
    if p.name !in csq {
      return Some(Err(KeyError(p.name)));
    }
    var value := csq[p.name];
    if value == "" {
      if filterUnpredicted {
        return Some(Ok(true));
      }
      return None;
    }
    var doFilter;
    match p {
      case CategoricalProgram(_, labels) =>
        doFilter := CategoricalDoFilter(labels, value);
      case NumericProgram(_, threshold, lower) =>
        doFilter := NumericDoFilter(threshold, lower, value, parseFloat);
    }
    if keepIfAnyDamaging && !doFilter {
      out := Some(Ok(false));
    } else if doFilter {
      out := Some(Ok(true));
    } else {
      out := None;
    }
  }

  /** The first loop of `filter`, over `pred_filters` in insertion order. */
  method VisitCategorical(f: InSilicoFilter, csq: map<string, string>, parseFloat: string -> Option<real>)
    returns (out: Option<Result<bool>>)
    requires f.Valid()
    ensures out == FirstVerdict(PredPrograms(f), csq, f.filterUnpredicted, f.keepIfAnyDamaging, parseFloat)
  {
    ghost var ps := PredPrograms(f);
    var fu, ka := f.filterUnpredicted, f.keepIfAnyDamaging;
    var i := 0;
    while i < |f.predOrder|
      invariant i <= |f.predOrder|
      invariant FirstVerdict(ps[i..], csq, fu, ka, parseFloat) == FirstVerdict(ps, csq, fu, ka, parseFloat)
    {
      var prog := f.predOrder[i];
      FirstVerdictFrom(ps, i, csq, fu, ka, parseFloat);
      out := Visit(CategoricalProgram(prog, f.predFilters[prog]), csq, fu, ka, parseFloat);
      if out.Some? {
        return;
      }
      i := i + 1;
    }
    assert ps[i..] == [];
    out := None;
  }

  /** The second loop of `filter`, over `score_filters` in insertion order. */
  method VisitNumeric(f: InSilicoFilter, csq: map<string, string>, parseFloat: string -> Option<real>)
    returns (out: Option<Result<bool>>)
    requires f.Valid()
    ensures out == FirstVerdict(ScorePrograms(f), csq, f.filterUnpredicted, f.keepIfAnyDamaging, parseFloat)
  {
    ghost var ps := ScorePrograms(f);
    var fu, ka := f.filterUnpredicted, f.keepIfAnyDamaging;
    var j := 0;
    while j < |f.scoreOrder|
      invariant j <= |f.scoreOrder|
      invariant FirstVerdict(ps[j..], csq, fu, ka, parseFloat) == FirstVerdict(ps, csq, fu, ka, parseFloat)
    {
      var prog := f.scoreOrder[j];
      FirstVerdictFrom(ps, j, csq, fu, ka, parseFloat);
      out := Visit(NumericProgram(prog, f.scoreFilters[prog], prog in f.lowerMoreDamaging),
                   csq, fu, ka, parseFloat);
      if out.Some? {
        return;
      }
      j := j + 1;
    }
    assert ps[j..] == [];
    out := None;
  }

  /** `InSilicoFilter.filter`: the categorical programs in `pred_filters`
      order, then the numeric ones in `score_filters` order, returning as
      soon as one program's vote decides; a consequence no program decides
      is kept. */
  method Filter(f: InSilicoFilter, csq: map<string, string>, parseFloat: string -> Option<real>)
    returns (r: Result<bool>)
    requires f.Valid()
    ensures r == Decide(f, csq, parseFloat)
  {
    var fu, ka := f.filterUnpredicted, f.keepIfAnyDamaging;
    ScanAppend(PredPrograms(f), ScorePrograms(f), csq, fu, ka, parseFloat);
    ScanAppend(ScorePrograms(f), [], csq, fu, ka, parseFloat);
    assert ScorePrograms(f) + [] == ScorePrograms(f);
    var out := VisitCategorical(f, csq, parseFloat);
    if out.Some? {
      return out.value;
    }
    out := VisitNumeric(f, csq, parseFloat);
    if out.Some? {
      return out.value;
    }
    r := Ok(false);
  }

  // ---------------------------------------------------------------------
  // Properties of the decision
  // ---------------------------------------------------------------------

  /** Every program of `ps` has a value in the consequence. */
  predicate AllPresent(ps: seq<Configured>, csq: map<string, string>) {
    forall k :: 0 <= k < |ps| ==> ps[k].name in csq
  }

  /** A program that, on its own, asks for the consequence to be filtered:
      it votes benign, or it has no prediction while `filter_unpredicted`
      is set. */
  predicate Rejects(p: Configured, csq: map<string, string>, filterUnpredicted: bool,
                    parseFloat: string -> Option<real>)
  {
    p.name in csq &&
    var v := VoteOf(p, csq[p.name], parseFloat);
    v == Benign || (filterUnpredicted && v == Unpredicted)
  }

  /** Without `keep_if_any_damaging`, a consequence whose programs all
      have values is filtered exactly when some program rejects it: it is
      kept only when every program predicts damaging or (unless
      `filter_unpredicted`) predicts nothing. */
  lemma {:induction false} ScanConsensus(ps: seq<Configured>, csq: map<string, string>, filterUnpredicted: bool,
                                         parseFloat: string -> Option<real>)
    requires AllPresent(ps, csq)
    ensures Scan(ps, csq, filterUnpredicted, false, parseFloat) ==
              Ok(exists k :: 0 <= k < |ps| && Rejects(ps[k], csq, filterUnpredicted, parseFloat))
    decreases |ps|
  {
    if ps != [] {
      var rest := ps[1..];
      assert AllPresent(rest, csq) by {
        forall k | 0 <= k < |rest| ensures rest[k].name in csq {
          assert rest[k] == ps[k + 1];
        }
      }
      ScanConsensus(rest, csq, filterUnpredicted, parseFloat);
      if !Rejects(ps[0], csq, filterUnpredicted, parseFloat) {
        if exists k :: 0 <= k < |ps| && Rejects(ps[k], csq, filterUnpredicted, parseFloat) {
          var k :| 0 <= k < |ps| && Rejects(ps[k], csq, filterUnpredicted, parseFloat);
          assert rest[k - 1] == ps[k];
        }
        if exists k :: 0 <= k < |rest| && Rejects(rest[k], csq, filterUnpredicted, parseFloat) {
          var k :| 0 <= k < |rest| && Rejects(rest[k], csq, filterUnpredicted, parseFloat);
          assert ps[k + 1] == rest[k];
        }
      }
    }
  }

  /** The same for a constructed filter. */
  lemma DecideConsensus(f: InSilicoFilter, csq: map<string, string>, parseFloat: string -> Option<real>)
    requires f.Valid() && !f.keepIfAnyDamaging
    requires AllPresent(Programs(f), csq)
    ensures Decide(f, csq, parseFloat) ==
              Ok(exists k :: 0 <= k < |Programs(f)| && Rejects(Programs(f)[k], csq, f.filterUnpredicted, parseFloat))
  {
    ScanConsensus(Programs(f), csq, f.filterUnpredicted, parseFloat);
  }

  /** Without `keep_if_any_damaging`, the order in which the programs are
      visited does not matter: two lists holding the same programs give
      the same verdict. */
  lemma ScanOrderIrrelevant(ps: seq<Configured>, qs: seq<Configured>, csq: map<string, string>,
                            filterUnpredicted: bool, parseFloat: string -> Option<real>)
    requires AllPresent(ps, csq) && AllPresent(qs, csq)
    requires forall p :: p in ps <==> p in qs
    ensures Scan(ps, csq, filterUnpredicted, false, parseFloat) == Scan(qs, csq, filterUnpredicted, false, parseFloat)
  {
    ScanConsensus(ps, csq, filterUnpredicted, parseFloat);
    ScanConsensus(qs, csq, filterUnpredicted, parseFloat);
    if exists k :: 0 <= k < |ps| && Rejects(ps[k], csq, filterUnpredicted, parseFloat) {
      var k :| 0 <= k < |ps| && Rejects(ps[k], csq, filterUnpredicted, parseFloat);
      assert ps[k] in qs;
    }
    if exists k :: 0 <= k < |qs| && Rejects(qs[k], csq, filterUnpredicted, parseFloat) {
      var k :| 0 <= k < |qs| && Rejects(qs[k], csq, filterUnpredicted, parseFloat);
      assert qs[k] in ps;
    }
  }

  /** The only failure of `filter` is the lookup of a program the
      consequence has no value for; with every value present it never
      fails. */
  lemma {:induction false} ScanFailsOnlyOnMissingValue(ps: seq<Configured>, csq: map<string, string>,
                                                        filterUnpredicted: bool, keepIfAnyDamaging: bool,
                                                        parseFloat: string -> Option<real>)
    ensures var r := Scan(ps, csq, filterUnpredicted, keepIfAnyDamaging, parseFloat);
            r.Err? ==> exists k :: 0 <= k < |ps| && ps[k].name !in csq && r.error == KeyError(ps[k].name)
    ensures AllPresent(ps, csq) ==> Scan(ps, csq, filterUnpredicted, keepIfAnyDamaging, parseFloat).Ok?
    decreases |ps|
  {
    if ps != [] {
      var rest := ps[1..];
      ScanFailsOnlyOnMissingValue(rest, csq, filterUnpredicted, keepIfAnyDamaging, parseFloat);
      var r := Scan(rest, csq, filterUnpredicted, keepIfAnyDamaging, parseFloat);
      if r.Err? {
        var k :| 0 <= k < |rest| && rest[k].name !in csq && r.error == KeyError(rest[k].name);
        assert ps[k + 1] == rest[k];
      }
      if AllPresent(ps, csq) {
        assert AllPresent(rest, csq) by {
          forall k | 0 <= k < |rest| ensures rest[k].name in csq {
            assert rest[k] == ps[k + 1];
          }
        }
      }
    }
  }

  /** Programs whose turn decides nothing are skipped: the scan goes on
      from the first program that decides. */
  lemma {:induction false} ScanSkipsUndecided(ps: seq<Configured>, i: nat, csq: map<string, string>,
                                              filterUnpredicted: bool, keepIfAnyDamaging: bool,
                                              parseFloat: string -> Option<real>)
    requires i <= |ps|
    requires forall k :: 0 <= k < i ==> Turn(ps[k], csq, filterUnpredicted, keepIfAnyDamaging, parseFloat).None?
    ensures Scan(ps, csq, filterUnpredicted, keepIfAnyDamaging, parseFloat) ==
              Scan(ps[i..], csq, filterUnpredicted, keepIfAnyDamaging, parseFloat)
    decreases i
  {
    if i > 0 {
      ScanSkipsUndecided(ps, i - 1, csq, filterUnpredicted, keepIfAnyDamaging, parseFloat);
      var t := ps[i - 1..];
      assert t[0] == ps[i - 1] && t[1..] == ps[i..];
    }
  }

  /** With `keep_if_any_damaging`, a damaging vote keeps the consequence
      only if no earlier program has already decided: when every program
      before it has no prediction (and `filter_unpredicted` is off), the
      consequence is kept. */
  lemma KeepIfFirstDecidingVoteDamaging(ps: seq<Configured>, i: nat, csq: map<string, string>,
                                        parseFloat: string -> Option<real>)
    requires i < |ps| && AllPresent(ps, csq)
    requires forall k :: 0 <= k < i ==> VoteOf(ps[k], csq[ps[k].name], parseFloat) == Unpredicted
    requires VoteOf(ps[i], csq[ps[i].name], parseFloat) == Damaging
    ensures Scan(ps, csq, false, true, parseFloat) == Ok(false)
  {
    ScanSkipsUndecided(ps, i, csq, false, true, parseFloat);
    assert ps[i..][0] == ps[i];
  }

  /** Two categorical programs A and B, each with the label `D`, and a
      consequence where A predicts `T` and B predicts `D`.  With
      `keep_if_any_damaging`, visiting A first filters the consequence
      (A's benign vote returns at once) while visiting B first keeps it:
      "keep if ANY program predicts damaging" holds only for a damaging
      vote that comes before every benign one in `pred_filters` order. */
  lemma KeepIfAnyDamagingDependsOnOrder(parseFloat: string -> Option<real>)
    ensures
      var a := CategoricalProgram("A", Listed(["D"]));
      var b := CategoricalProgram("B", Listed(["D"]));
      var csq := map["A" := "T", "B" := "D"];
      && Scan([a, b], csq, false, true, parseFloat) == Ok(true)
      && Scan([b, a], csq, false, true, parseFloat) == Ok(false)
  {
    var a := CategoricalProgram("A", Listed(["D"]));
    var b := CategoricalProgram("B", Listed(["D"]));
    var csq := map["A" := "T", "B" := "D"];
    BareLabel("T");
    BareLabel("D");
    assert CategoricalVote(Listed(["D"]), "T") == Benign;
    assert Listed(["D"]).Has(StripScores(Split("D", '&')[0]));
    assert CategoricalVote(Listed(["D"]), "D") == Damaging;
    assert [a, b][1..] == [b];
  }

  /** A plain label is one sub-value and is its own stripped form. */
  lemma BareLabel(w: string)
    requires '&' !in w && '(' !in w
    ensures Split(w, '&') == [w] && StripScores(w) == w
  {
    SplitWithoutSeparator(w, '&');
    StripScoresBracketFreePrefix(w, "");
    assert w + "" == w;
  }

  /** A bracketed score after a label does not change a categorical vote:
      `probably_damaging(0.95)` votes as `probably_damaging`. */
  lemma CategoricalVoteIgnoresScore(labels: Labels, w: string, d: char, frac: string)
    requires w != "" && '&' !in w && '(' !in w
    requires IsDigit(d) && AllDigits(frac)
    ensures CategoricalVote(labels, w + BracketedScore(d, frac)) == CategoricalVote(labels, w)
  {
    var v := w + BracketedScore(d, frac);
    assert '&' !in v by {
      forall k | 0 <= k < |v| ensures v[k] != '&' {
        if k >= |w| {
          assert v[k] == BracketedScore(d, frac)[k - |w|];
        }
      }
    }
    SplitWithoutSeparator(v, '&');
    StripScoresRemovesSuffix(w, d, frac);
    BareLabel(w);
    var pv, pw := Split(v, '&'), Split(w, '&');
    assert StripScores(pv[0]) == StripScores(pw[0]) == w;
    if labels.Has(w) {
      assert labels.Has(StripScores(pv[0])) && labels.Has(StripScores(pw[0]));
    }
  }

  /** A categorical value with several `&`-separated predictions votes
      damaging exactly when one of them does. */
  lemma CategoricalVoteAnyPart(labels: Labels, a: string, b: string)
    requires '&' !in a && b != ""
    ensures CategoricalVote(labels, a + "&" + b) == Damaging <==>
              labels.Has(StripScores(a)) || CategoricalVote(labels, b) == Damaging
  {
    SplitAtFirst(a, b);
    var parts := Split(a + "&" + b, '&');
    var tail := Split(b, '&');
    assert parts[0] == a;
    if CategoricalVote(labels, b) == Damaging {
      var k :| 0 <= k < |tail| && labels.Has(StripScores(tail[k]));
      assert parts[k + 1] == tail[k];
    }
    if exists k :: 0 <= k < |parts| && labels.Has(StripScores(parts[k])) {
      var k :| 0 <= k < |parts| && labels.Has(StripScores(parts[k]));
      if k > 0 {
        assert tail[k - 1] == parts[k];
      }
    }
  }

  /** `(a + "&" + b).split('&')` for `a` without `&`. */
  lemma SplitAtFirst(a: string, b: string)
    requires '&' !in a
    ensures Split(a + "&" + b, '&') == [a] + Split(b, '&')
  {
    var t := "&" + b;
    assert t[0] == '&' && t[1..] == b;
    SplitSeparatorFreePrefix(a, t, '&');
    assert a + "&" + b == a + t;
    assert a + "" == a;
  }

  /** A single numeric prediction votes damaging exactly when it converts
      to a number on the damaging side of the threshold, and benign when
      it does not convert at all. */
  lemma NumericVoteSingle(threshold: real, lowerIsDamaging: bool, v: string, parseFloat: string -> Option<real>)
    requires v != "" && '&' !in v
    ensures NumericVote(threshold, lowerIsDamaging, v, parseFloat) ==
              if parseFloat(v).Some? && MeetsThreshold(parseFloat(v).value, threshold, lowerIsDamaging)
              then Damaging else Benign
  {
    SplitWithoutSeparator(v, '&');
    assert Split(v, '&')[0] == v;
  }

  /** A sub-value that does not convert to a number is skipped, as the
      `except ValueError: continue` does. */
  lemma NumericVoteSkipsUnparseable(threshold: real, lowerIsDamaging: bool, a: string, b: string,
                                    parseFloat: string -> Option<real>)
    requires '&' !in a && parseFloat(a).None? && b != ""
    ensures NumericVote(threshold, lowerIsDamaging, a + "&" + b, parseFloat) ==
              NumericVote(threshold, lowerIsDamaging, b, parseFloat)
  {
    SplitAtFirst(a, b);
    var parts := Split(a + "&" + b, '&');
    var tail := Split(b, '&');
    if NumericVote(threshold, lowerIsDamaging, b, parseFloat) == Damaging {
      var k :| 0 <= k < |tail| && parseFloat(tail[k]).Some?
               && MeetsThreshold(parseFloat(tail[k]).value, threshold, lowerIsDamaging);
      assert parts[k + 1] == tail[k];
    }
    if NumericVote(threshold, lowerIsDamaging, a + "&" + b, parseFloat) == Damaging {
      var k :| 0 <= k < |parts| && parseFloat(parts[k]).Some?
               && MeetsThreshold(parseFloat(parts[k]).value, threshold, lowerIsDamaging);
      assert k > 0;
      assert tail[k - 1] == parts[k];
    }
  }

  /** The labels an override sets are `set(pred)`, the characters of the
      value: a value of two or more characters is then not one of its own
      labels, so a prediction equal to the configured value votes benign. */
  lemma OverrideLabelsAreCharacters(v: string)
    requires |v| >= 2 && '&' !in v && '(' !in v
    ensures CategoricalVote(CharSet(Chars(v)), v) == Benign
  {
    BareLabel(v);
  }
}
