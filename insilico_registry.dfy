/** The registry of in silico prediction programs that `InSilicoFilter`
    reads from its TSV table when it is constructed
    (vape/insilico_filter.py:76-106).  Each table line is
    `program <TAB> value <TAB> kind [<TAB> lower=damaging]`: a kind of
    `score` gives a numeric program and its default threshold, any other
    kind (`default`, `valid`, ...) adds a label to that kind's list for a
    categorical program.  The table's lines are an input here; opening and
    reading the file is not modelled. */
module InSilicoRegistry {
  import opened Outcomes
  import opened Text

  /** A program of the registry: numeric with its default threshold, or
      categorical with its label lists keyed by kind. */
  datatype Predictor =
    | Numeric(default: real)
    | Categorical(kinds: map<string, seq<string>>)

  /** `default_progs`, `case_insensitive` (lower-cased name to the
      registry's spelling) and `lower_more_damaging`. */
  datatype Registry = Registry(
    programs: map<string, Predictor>,
    caseInsensitive: map<string, string>,
    lowerMoreDamaging: set<string>)

  const EmptyRegistry: Registry := Registry(map[], map[], {})

  /** What every successfully loaded registry satisfies: each lower-cased
      name resolves to a program of the registry spelled that way, every
      program can be looked up, `lower=damaging` programs are programs, and
      no categorical program has a `score` kind. */
  predicate Valid(reg: Registry) {
    && (forall k :: k in reg.caseInsensitive ==>
          reg.caseInsensitive[k] in reg.programs && Lower(reg.caseInsensitive[k]) == k)
    && (forall p {:trigger Lower(p)} :: p in reg.programs ==> Lower(p) in reg.caseInsensitive)
    && reg.lowerMoreDamaging <= reg.programs.Keys
    && (forall p :: p in reg.programs && reg.programs[p].Categorical? ==>
          "score" !in reg.programs[p].kinds)
  }

  /** A row for a program that is already in the registry.  A numeric
      program's entry is the dict `{'type': 'score', 'default': x}`, so a
      `type` or `default` row appends to a string or a float and fails, a
      second `score` row is refused and any other kind is stored where
      nothing reads it.  A categorical program's entry starts as
      `{'type': 'pred'}`: a listed kind gets the value appended, a `type`
      row appends to the string 'pred' and fails, a new kind other than
      `score` starts a list, and `score` is refused. */
  function AddRow(name: string, entry: Predictor, kind: string, value: string): (r: Result<Predictor>)
    ensures r.Ok? ==> r.value.Numeric? == entry.Numeric?
    ensures entry.Numeric? && r.Ok? ==> r.value == entry
    ensures kind == "score" && (entry.Numeric? || kind !in entry.kinds) ==>
              r == Err(DuplicateScoreEntry(name))
    ensures entry.Categorical? && r.Ok? ==>
              && r.value.kinds.Keys == entry.kinds.Keys + {kind}
              && r.value.kinds[kind] == (if kind in entry.kinds then entry.kinds[kind] else []) + [value]
              && (forall k :: k in entry.kinds && k != kind ==> r.value.kinds[k] == entry.kinds[k])
  {
    match entry
    case Numeric(_) =>
      if kind == "type" || kind == "default" then Err(AttributeError)
      else if kind == "score" then Err(DuplicateScoreEntry(name))
      else Ok(entry)
    case Categorical(kinds) =>
      if kind in kinds then Ok(Categorical(kinds[kind := kinds[kind] + [value]]))
      else if kind == "type" then Err(AttributeError)
      else if kind != "score" then Ok(Categorical(kinds[kind := [value]]))
      else Err(DuplicateScoreEntry(name))
  }

  /** The first row of a program: categorical unless its kind is `score`,
      in which case its value must convert to a number. */
  function NewEntry(kind: string, value: string, parseFloat: string -> Option<real>): (r: Result<Predictor>)
    ensures kind != "score" ==> r == Ok(Categorical(map[kind := [value]]))
    ensures kind == "score" ==>
              (r.Ok? <==> parseFloat(value).Some?) &&
              (r.Ok? ==> r.value == Numeric(parseFloat(value).value)) &&
              (r.Err? ==> r.error == ValueError(value))
  {
    if kind != "score" then Ok(Categorical(map[kind := [value]]))
    else match parseFloat(value)
      case Some(x) => Ok(Numeric(x))
      case None => Err(ValueError(value))
  }

  /** Whether a table line sets `lower=damaging` for `program`. */
  predicate MarksLowerDamaging(line: string, program: string) {
    !StartsWith(line, '#') &&
    var cols := Columns(line);
    |cols| >= 4 && cols[0] == program && cols[3] == "lower=damaging"
  }

  /** One line of the table applied to the registry read so far. */
  function LoadLine(reg: Registry, line: string, parseFloat: string -> Option<real>): (r: Result<Registry>)
    ensures Valid(reg) && r.Ok? ==> Valid(r.value)
    ensures StartsWith(line, '#') ==> r == Ok(reg)
    ensures r.Ok? ==> reg.programs.Keys <= r.value.programs.Keys
  {
    if StartsWith(line, '#') then Ok(reg)
    else
      var cols := Columns(line);
      var name := cols[0];
      if |cols| < 3 then Err(IndexError)
      else
        var entry :- if name in reg.programs then AddRow(name, reg.programs[name], cols[2], cols[1])
                     else NewEntry(cols[2], cols[1], parseFloat);
        var lower := if |cols| >= 4 && cols[3] == "lower=damaging"
                     then reg.lowerMoreDamaging + {name} else reg.lowerMoreDamaging;
        Ok(Registry(reg.programs[name := entry], reg.caseInsensitive[Lower(name) := name], lower))
  }

  /** The registry after reading `lines` in order; the first failing line
      ends the load. */
  function Load(lines: seq<string>, parseFloat: string -> Option<real>): (r: Result<Registry>)
    ensures r.Ok? ==> Valid(r.value)
    decreases |lines|
  {
    if lines == [] then Ok(EmptyRegistry)
    else
      var reg :- Load(lines[..|lines| - 1], parseFloat);
      LoadLine(reg, lines[|lines| - 1], parseFloat)
  }

  /** An error in a prefix of the table is the error of the whole load. */
  lemma {:induction false} LoadKeepsError(lines: seq<string>, i: nat, parseFloat: string -> Option<real>)
    requires i <= |lines|
    requires Load(lines[..i], parseFloat).Err?
    ensures Load(lines, parseFloat) == Load(lines[..i], parseFloat)
    decreases |lines| - i
  {
    if i < |lines| {
      assert lines[..i + 1][..i] == lines[..i];
      LoadKeepsError(lines, i + 1, parseFloat);
    } else {
      assert lines[..i] == lines;
    }
  }

  /** The constructor's loop over the table lines
      (vape/insilico_filter.py:82-106): the three tables, updated line by line. */
  method LoadRegistry(lines: seq<string>, parseFloat: string -> Option<real>) returns (r: Result<Registry>)
    ensures r == Load(lines, parseFloat)
  {
    var reg := EmptyRegistry;
    var i := 0;
    while i < |lines|
      invariant i <= |lines|
      invariant Load(lines[..i], parseFloat) == Ok(reg)
    {
      assert lines[..i + 1][..i] == lines[..i];
      LoadStep(lines[..i + 1], parseFloat);
      var next := LoadTableLine(reg.programs, reg.caseInsensitive, reg.lowerMoreDamaging, lines[i], parseFloat);
      if next.Err? {
        LoadKeepsError(lines, i + 1, parseFloat);
        return Err(next.error);
      }
      reg := next.value;
      i := i + 1;
    }
    assert lines[..i] == lines;
    r := Ok(reg);
  }

  /** The body of the constructor's loop for one line: the three tables
      updated in turn. */
  method LoadTableLine(programs0: map<string, Predictor>, caseInsensitive0: map<string, string>,
                       lowerMoreDamaging0: set<string>, line: string, parseFloat: string -> Option<real>)
    returns (r: Result<Registry>)
    ensures r == LoadLine(Registry(programs0, caseInsensitive0, lowerMoreDamaging0), line, parseFloat)
  {
    if StartsWith(line, '#') {
      return Ok(Registry(programs0, caseInsensitive0, lowerMoreDamaging0));
    }
    var programs, caseInsensitive, lowerMoreDamaging := programs0, caseInsensitive0, lowerMoreDamaging0;
    var cols := Columns(line);
    var name := cols[0];
    caseInsensitive := caseInsensitive[Lower(name) := name];
    if |cols| < 3 {
      return Err(IndexError);
    }
    var entry: Predictor;
    if name in programs {
      var added := AddRow(name, programs[name], cols[2], cols[1]);
      if added.Err? {
        return Err(added.error);
      }
      entry := added.value;
    } else if cols[2] != "score" {
      entry := Categorical(map[cols[2] := [cols[1]]]);
    } else {
      var score := parseFloat(cols[1]);
      if score.None? {
        return Err(ValueError(cols[1]));
      }
      entry := Numeric(score.value);
    }
    programs := programs[name := entry];
    if |cols| >= 4 && cols[3] == "lower=damaging" {
      lowerMoreDamaging := lowerMoreDamaging + {name};
    }
    r := Ok(Registry(programs, caseInsensitive, lowerMoreDamaging));
  }

  /** The table's lines in order, one more at the end. */
  lemma LoadStep(lines: seq<string>, parseFloat: string -> Option<real>)
    requires lines != []
    ensures Load(lines, parseFloat) ==
              match Load(lines[..|lines| - 1], parseFloat)
              case Ok(reg) => LoadLine(reg, lines[|lines| - 1], parseFloat)
              case Err(e) => Err(e)
  {
  }

  /** A line starting with `#` is ignored wherever it stands in the table. */
  lemma {:induction false} LoadSkipsComment(a: seq<string>, c: string, b: seq<string>, parseFloat: string -> Option<real>)
    requires StartsWith(c, '#')
    ensures Load(a + [c] + b, parseFloat) == Load(a + b, parseFloat)
    decreases |b|
  {
    if b == [] {
      assert a + [c] + b == a + [c];
      assert (a + [c])[..|a|] == a;
      assert a + b == a;
      LoadStep(a + [c], parseFloat);
    } else {
      var b' := b[..|b| - 1];
      var x := b[|b| - 1];
      LoadSkipsComment(a, c, b', parseFloat);
      assert (a + [c] + b)[..|a + [c] + b| - 1] == a + [c] + b';
      assert (a + [c] + b)[|a + [c] + b| - 1] == x;
      assert (a + b)[..|a + b| - 1] == a + b';
      assert (a + b)[|a + b| - 1] == x;
      LoadStep(a + [c] + b, parseFloat);
      LoadStep(a + b, parseFloat);
    }
  }

  /** A `score` row for a program that is already in the registry is
      refused, whether the earlier rows made it numeric or categorical. */
  lemma LoadRejectsSecondScore(lines: seq<string>, line: string, parseFloat: string -> Option<real>)
    requires Load(lines, parseFloat).Ok?
    requires !StartsWith(line, '#')
    requires |Columns(line)| >= 3 && Columns(line)[2] == "score"
    requires Columns(line)[0] in Load(lines, parseFloat).value.programs
    ensures Load(lines + [line], parseFloat) == Err(DuplicateScoreEntry(Columns(line)[0]))
  {
    assert (lines + [line])[..|lines|] == lines;
  }

  /** A further row of a kind a categorical program already has appends
      its value to that kind's list and leaves the other kinds alone. */
  lemma LoadAppendsLabel(lines: seq<string>, line: string, parseFloat: string -> Option<real>)
    requires Load(lines, parseFloat).Ok?
    requires !StartsWith(line, '#')
    requires |Columns(line)| >= 3
    requires Columns(line)[0] in Load(lines, parseFloat).value.programs
    requires Load(lines, parseFloat).value.programs[Columns(line)[0]].Categorical?
    requires Columns(line)[2] in Load(lines, parseFloat).value.programs[Columns(line)[0]].kinds
    ensures
      var cols := Columns(line);
      var kinds := Load(lines, parseFloat).value.programs[cols[0]].kinds;
      var after := Load(lines + [line], parseFloat);
      after.Ok? && after.value.programs[cols[0]] == Categorical(kinds[cols[2] := kinds[cols[2]] + [cols[1]]])
  {
    assert (lines + [line])[..|lines|] == lines;
  }

  /** The first row of a program makes it numeric exactly when its kind is
      `score`, with the row's value as its default threshold; a value that
      is not a number fails the load. */
  lemma LoadFirstScoreRow(lines: seq<string>, line: string, parseFloat: string -> Option<real>)
    requires Load(lines, parseFloat).Ok?
    requires !StartsWith(line, '#')
    requires |Columns(line)| >= 3 && Columns(line)[2] == "score"
    requires Columns(line)[0] !in Load(lines, parseFloat).value.programs
    ensures
      var cols := Columns(line);
      var after := Load(lines + [line], parseFloat);
      (after.Ok? <==> parseFloat(cols[1]).Some?) &&
      (after.Ok? ==> after.value.programs[cols[0]] == Numeric(parseFloat(cols[1]).value)) &&
      (after.Err? ==> after.error == ValueError(cols[1]))
  {
    assert (lines + [line])[..|lines|] == lines;
  }

  /** A program is in `lower_more_damaging` exactly when some line of the
      table names it with a fourth column `lower=damaging`. */
  lemma {:induction false} LowerMoreDamagingExactly(lines: seq<string>, program: string, parseFloat: string -> Option<real>)
    requires Load(lines, parseFloat).Ok?
    ensures program in Load(lines, parseFloat).value.lowerMoreDamaging <==>
              exists k :: 0 <= k < |lines| && MarksLowerDamaging(lines[k], program)
    decreases |lines|
  {
    if lines != [] {
      var prefix := lines[..|lines| - 1];
      var last := lines[|lines| - 1];
      LowerMoreDamagingExactly(prefix, program, parseFloat);
      LoadStep(lines, parseFloat);
      assert program in Load(lines, parseFloat).value.lowerMoreDamaging <==>
               program in Load(prefix, parseFloat).value.lowerMoreDamaging || MarksLowerDamaging(last, program);
      ExistsMark(lines, program);
    }
  }

  lemma ExistsMark(lines: seq<string>, program: string)
    requires lines != []
    ensures var prefix := lines[..|lines| - 1];
            (exists k :: 0 <= k < |lines| && MarksLowerDamaging(lines[k], program)) <==>
              (exists k :: 0 <= k < |prefix| && MarksLowerDamaging(prefix[k], program))
              || MarksLowerDamaging(lines[|lines| - 1], program)
  {
    var prefix := lines[..|lines| - 1];
    forall k | 0 <= k < |prefix| ensures prefix[k] == lines[k] { }
  }
}
