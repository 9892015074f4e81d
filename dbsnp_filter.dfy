/** `dbSnpFilter` (vape/filter.py:6-158): the per-allele frequency filter
    driven by a dbSNP VCF.

    For every decomposed alternate allele of a record it looks for the
    first equal decomposed allele among the dbSNP records that overlap the
    record, and sets the allele's `filter` flag from the CAF, COMMON, G5
    and G5A INFO values of that dbSNP record against the `freq` and
    `min_freq` thresholds.  The values it used are collected into INFO
    columns, one entry per allele, padded with `.`.

    The region query is an input here (the list of overlapping dbSNP
    records); the VCF reader and the header parsing are not modelled. */
module DbSnp {
  import opened Outcomes
  import opened Text

  // ---------------------------------------------------------------------
  // Data
  // ---------------------------------------------------------------------

  /** A decomposed allele; only equality is used. */
  datatype DecomposedAllele = DecomposedAllele(chrom: string, pos: int, ref: string, alt: string)

  /** An INFO value as the VCF parser stores it (a string, or True for a
      flag), or the integer 1 that the filter records for G5/G5A. */
  datatype Value = Text(s: string) | Flag | One

  /** Python truthiness of an INFO value. */
  predicate Truthy(v: Value) {
    match v
    case Text(s) => s != ""
    case Flag => true
    case One => true
  }

  /** A dbSNP record returned by the region query: its decomposed alleles
      and its INFO fields. */
  datatype Hit = Hit(alleles: seq<DecomposedAllele>, info: map<string, Value>)

  /** The header description of one INFO field. */
  datatype FieldMeta = FieldMeta(number: string, kind: string, description: string)

  // ---------------------------------------------------------------------
  // Declared fields (vape/filter.py:139-158)
  // ---------------------------------------------------------------------

  const FreqFieldNames: seq<string> := ["CAF", "G5A", "G5", "COMMON"]
  const ClinvarFieldNames: seq<string> := ["CLNSIG", "CLNALLE", "CLNDBN", "CLNDSDBID", "CLNHGVS", "GENEINFO"]
  const BuildFieldNames: seq<string> := ["dbSNPBuildID"]

  /** The fields of a fixed list that the header declares, in list order
      (the insertion order of the dict that is filled), each with the last
      of its header entries. */
  datatype Declared = Declared(order: seq<string>, meta: map<string, FieldMeta>)

  /** The names of `names` that the header declares, in order. */
  function Present(names: seq<string>, info: map<string, seq<FieldMeta>>): (r: seq<string>)
    ensures forall f :: f in r <==> f in names && f in info
    decreases |names|
  {
    if names == [] then []
    else
      var last := names[|names| - 1];
      Present(names[..|names| - 1], info) + (if last in info then [last] else [])
  }

  /** The loop over one fixed list: `self.X_fields[f] = metadata['INFO'][f][-1]`
      for each declared name; a name declared with no entry fails the
      `[-1]`. */
  function DeclaredIn(names: seq<string>, info: map<string, seq<FieldMeta>>): Result<Declared>
    decreases |names|
  {
    if names == [] then Ok(Declared([], map[]))
    else
      var sofar :- DeclaredIn(names[..|names| - 1], info);
      var f := names[|names| - 1];
      if f !in info then Ok(sofar)
      else if |info[f]| == 0 then Err(IndexError)
      else Ok(Declared(if f in sofar.meta then sofar.order else sofar.order + [f],
                       sofar.meta[f := info[f][|info[f]| - 1]]))
  }

  /** Loading a fixed list fails exactly when the header declares one of
      its names with no entry. */
  lemma {:induction false} DeclaredInFails(names: seq<string>, info: map<string, seq<FieldMeta>>)
    ensures DeclaredIn(names, info).Ok? <==> forall f :: f in names && f in info ==> |info[f]| > 0
    decreases |names|
  {
    if names != [] {
      var init := names[..|names| - 1];
      DeclaredInFails(init, info);
      assert names == init + [names[|names| - 1]];
    }
  }

  /** The declared fields are exactly the listed names the header
      declares, each with its last header entry. */
  lemma {:induction false} DeclaredInMeta(names: seq<string>, info: map<string, seq<FieldMeta>>)
    requires DeclaredIn(names, info).Ok?
    ensures forall f :: f in DeclaredIn(names, info).value.meta <==> f in names && f in info
    ensures forall f :: f in DeclaredIn(names, info).value.meta ==>
              f in info && |info[f]| > 0 && DeclaredIn(names, info).value.meta[f] == info[f][|info[f]| - 1]
    decreases |names|
  {
    if names != [] {
      var init := names[..|names| - 1];
      DeclaredInMeta(init, info);
      assert names == init + [names[|names| - 1]];
    }
  }

  /** For a list without repeats, the declared fields come in list order. */
  lemma {:induction false} DeclaredInOrder(names: seq<string>, info: map<string, seq<FieldMeta>>)
    requires forall i, j :: 0 <= i < j < |names| ==> names[i] != names[j]
    requires DeclaredIn(names, info).Ok?
    ensures DeclaredIn(names, info).value.order == Present(names, info)
    decreases |names|
  {
    if names != [] {
      var init := names[..|names| - 1];
      var last := names[|names| - 1];
      assert forall i, j :: 0 <= i < j < |init| ==> init[i] != init[j] by {
        forall i, j | 0 <= i < j < |init| ensures init[i] != init[j] {
          assert init[i] == names[i] && init[j] == names[j];
        }
      }
      DeclaredInOrder(init, info);
      DeclaredInMeta(init, info);
      assert last !in init by {
        forall k | 0 <= k < |init| ensures init[k] != last {
          assert init[k] == names[k];
        }
      }
    }
  }

  /** One of the three loops of `get_dbsnp_annot_fields`. */
  method DeclaredFields(names: seq<string>, info: map<string, seq<FieldMeta>>) returns (r: Result<Declared>)
    ensures r == DeclaredIn(names, info)
  {
    var order: seq<string> := [];
    var meta: map<string, FieldMeta> := map[];
    var i := 0;
    while i < |names|
      invariant i <= |names|
      invariant DeclaredIn(names[..i], info) == Ok(Declared(order, meta))
    {
      assert names[..i + 1][..i] == names[..i];
      var f := names[i];
      if f in info {
        var entries := info[f];
        if |entries| == 0 {
          DeclaredKeepsError(names, i + 1, info);
          return Err(IndexError);
        }
        if f !in meta {
          order := order + [f];
        }
        meta := meta[f := entries[|entries| - 1]];
      }
      i := i + 1;
    }
    assert names[..i] == names;
    r := Ok(Declared(order, meta));
  }

  lemma {:induction false} DeclaredKeepsError(names: seq<string>, i: nat, info: map<string, seq<FieldMeta>>)
    requires i <= |names|
    requires DeclaredIn(names[..i], info).Err?
    ensures DeclaredIn(names, info) == DeclaredIn(names[..i], info)
    decreases |names| - i
  {
    if i < |names| {
      assert names[..i + 1][..i] == names[..i];
      DeclaredKeepsError(names, i + 1, info);
    } else {
      assert names[..i] == names;
    }
  }

  // ---------------------------------------------------------------------
  // Construction (vape/filter.py:12-35)
  // ---------------------------------------------------------------------

  /** A constructed `dbSnpFilter`: the declared frequency, ClinVar and
      build fields and the thresholds. */
  datatype DbSnpFilter = DbSnpFilter(
    freqFields: Declared,
    clinvarFields: Declared,
    buildFields: Declared,
    freq: Option<real>,
    minFreq: Option<real>,
    clinvarPath: bool)

  /** `dbSnpFilter(dbsnp_vcf, freq, min_freq, clinvar_path=...)` for a
      dbSNP file whose header declares the INFO fields `info`: read the
      declared fields, then refuse `freq > min_freq`. */
  function Configure(info: map<string, seq<FieldMeta>>, freq: Option<real>, minFreq: Option<real>,
                     clinvarPath: bool): Result<DbSnpFilter>
  {
    var freqFields :- DeclaredIn(FreqFieldNames, info);
    var clinvarFields :- DeclaredIn(ClinvarFieldNames, info);
    var buildFields :- DeclaredIn(BuildFieldNames, info);
    if freq.Some? && minFreq.Some? && freq.value > minFreq.value then Err(FreqAboveMinFreq)
    else Ok(DbSnpFilter(freqFields, clinvarFields, buildFields, freq, minFreq, clinvarPath))
  }

  /** The constructor. */
  method NewDbSnpFilter(info: map<string, seq<FieldMeta>>, freq: Option<real>, minFreq: Option<real>,
                        clinvarPath: bool) returns (r: Result<DbSnpFilter>)
    ensures r == Configure(info, freq, minFreq, clinvarPath)
  {
    var freqFields := DeclaredFields(FreqFieldNames, info);
    if freqFields.Err? {
      return Err(freqFields.error);
    }
    var clinvarFields := DeclaredFields(ClinvarFieldNames, info);
    if clinvarFields.Err? {
      return Err(clinvarFields.error);
    }
    var buildFields := DeclaredFields(BuildFieldNames, info);
    if buildFields.Err? {
      return Err(buildFields.error);
    }
    if freq.Some? && minFreq.Some? {
      if freq.value > minFreq.value {
        return Err(FreqAboveMinFreq);
      }
    }
    r := Ok(DbSnpFilter(freqFields.value, clinvarFields.value, buildFields.value, freq, minFreq, clinvarPath));
  }

  /** With both thresholds given, construction is refused exactly when
      `freq > min_freq` (once the header loads). */
  lemma ConfigureRejectsInvertedThresholds(info: map<string, seq<FieldMeta>>, freq: real, minFreq: real,
                                           clinvarPath: bool)
    requires DeclaredIn(FreqFieldNames, info).Ok? && DeclaredIn(ClinvarFieldNames, info).Ok?
    requires DeclaredIn(BuildFieldNames, info).Ok?
    ensures Configure(info, Some(freq), Some(minFreq), clinvarPath).Err? <==> freq > minFreq
    ensures freq > minFreq ==> Configure(info, Some(freq), Some(minFreq), clinvarPath) == Err(FreqAboveMinFreq)
  {
  }

  // ---------------------------------------------------------------------
  // The first matching dbSNP allele
  // ---------------------------------------------------------------------

  /** The first index of `a` in `alleles`. */
  function IndexIn(a: DecomposedAllele, alleles: seq<DecomposedAllele>): (r: Option<nat>)
    ensures r.Some? ==> r.value < |alleles| && alleles[r.value] == a && a !in alleles[..r.value]
    ensures r.None? <==> a !in alleles
    decreases |alleles|
  {
    if alleles == [] then None
    else if alleles[0] == a then Some(0)
    else
      match IndexIn(a, alleles[1..])
      case Some(i) => (assert alleles[..i + 1] == [alleles[0]] + alleles[1..][..i]; Some(i + 1))
      case None => None
  }

  /** The first dbSNP record that holds `a` and the index of `a` in it. */
  function FirstMatch(a: DecomposedAllele, hits: seq<Hit>): (r: Option<(nat, nat)>)
    ensures r.Some? ==> r.value.0 < |hits| && r.value.1 < |hits[r.value.0].alleles|
    ensures r.Some? ==> hits[r.value.0].alleles[r.value.1] == a
    decreases |hits|
  {
    if hits == [] then None
    else match IndexIn(a, hits[0].alleles)
      case Some(i) => Some((0, i))
      case None =>
        match FirstMatch(a, hits[1..])
        case Some(m) => Some((m.0 + 1, m.1))
        case None => None
  }

  /** The first match is the earliest record holding the allele, at the
      allele's first position in it; there is none exactly when no record
      holds it. */
  lemma {:induction false} FirstMatchExactly(a: DecomposedAllele, hits: seq<Hit>)
    ensures FirstMatch(a, hits).None? <==> forall h :: 0 <= h < |hits| ==> a !in hits[h].alleles
    ensures FirstMatch(a, hits).Some? ==>
              var (h, i) := FirstMatch(a, hits).value;
              && h < |hits| && i < |hits[h].alleles| && hits[h].alleles[i] == a
              && a !in hits[h].alleles[..i]
              && forall g :: 0 <= g < h ==> a !in hits[g].alleles
    decreases |hits|
  {
    if hits != [] {
      FirstMatchExactly(a, hits[1..]);
      forall g | 0 <= g < |hits| - 1 ensures hits[1..][g] == hits[g + 1] { }
      if IndexIn(a, hits[0].alleles).None? && FirstMatch(a, hits[1..]).None? {
        forall h | 0 <= h < |hits| ensures a !in hits[h].alleles {
          if h > 0 {
            assert hits[h] == hits[1..][h - 1];
          }
        }
      }
    }
  }

  /** The match the loops of `_compare_snp_values` stop at. */
  lemma {:induction false} FirstMatchAt(a: DecomposedAllele, hits: seq<Hit>, h: nat, i: nat)
    requires h < |hits| && i < |hits[h].alleles| && hits[h].alleles[i] == a
    requires a !in hits[h].alleles[..i]
    requires forall g :: 0 <= g < h ==> a !in hits[g].alleles
    ensures FirstMatch(a, hits) == Some((h, i))
    decreases h
  {
    if h == 0 {
    } else {
      assert hits[1..][h - 1] == hits[h];
      forall g | 0 <= g < h - 1 ensures a !in hits[1..][g].alleles {
        assert hits[1..][g] == hits[g + 1];
      }
      FirstMatchAt(a, hits[1..], h - 1, i);
      assert a !in hits[0].alleles;
    }
  }

  // ---------------------------------------------------------------------
  // Evaluating the frequency fields of the matched record
  // (vape/filter.py:77-115)
  // ---------------------------------------------------------------------

  /** The state the field loop updates: `do_filter` and `annot`. */
  datatype Evaluation = Evaluation(filter: bool, annot: map<string, Value>)

  /** A CAF element against the thresholds: `int(val) >= freq` or
      `int(val) < min_freq`; an element that is not an integer is skipped. */
  predicate CafFilters(flt: DbSnpFilter, val: string, parseInt: string -> Option<int>) {
    parseInt(val).Some? &&
    ((flt.freq.Some? && parseInt(val).value as real >= flt.freq.value) ||
     (flt.minFreq.Some? && (parseInt(val).value as real) < flt.minFreq.value))
  }

  /** Whether the field `f` of `hit` asks for the allele at index `i` to
      be filtered: its CAF element reaches `freq` or falls below
      `min_freq`; COMMON on a single-allele record is "1" with `freq` at
      most 0.01 or "0" with `min_freq` at most 0.01; G5A, or G5 on a
      single-allele record, is set and `freq` is at most 0.05. */
  predicate Sets(flt: DbSnpFilter, f: string, hit: Hit, i: nat, parseInt: string -> Option<int>)
    requires f in hit.info
  {
    var v := hit.info[f];
    if f == "CAF" then
      v.Text? && i + 1 < |Split(v.s, ',')| && CafFilters(flt, Split(v.s, ',')[i + 1], parseInt)
    else if f == "COMMON" then
      && |hit.alleles| == 1
      && ((flt.freq.Some? && flt.freq.value <= 0.01 && v == Text("1")) ||
          (flt.minFreq.Some? && flt.minFreq.value <= 0.01 && v == Text("0")))
    else
      && (f == "G5A" || (f == "G5" && |hit.alleles| == 1))
      && flt.freq.Some? && flt.freq.value <= 0.05 && Truthy(v)
  }

  /** Whether the field `f` of `hit` withdraws the filter decision: G5A,
      or G5 on a single-allele record, is set and `min_freq` is at most
      0.05. */
  predicate Clears(flt: DbSnpFilter, f: string, hit: Hit)
    requires f in hit.info
  {
    && (f == "G5A" || (f == "G5" && |hit.alleles| == 1))
    && flt.minFreq.Some? && flt.minFreq.value <= 0.05 && Truthy(hit.info[f])
  }

  /** A CAF value the loop cannot index at `i + 1`: not a string, or with
      fewer than `i + 2` comma-separated elements. */
  predicate CafMalformed(v: Value, i: nat) {
    !v.Text? || |Split(v.s, ',')| < i + 2
  }

  /** The exception a malformed CAF value raises: `IndexError` from the
      subscript, or `AttributeError` from `split` on a non-string. */
  function CafError(v: Value): Error {
    if v.Text? then IndexError else AttributeError
  }

  /** One declared frequency field `f` present in the matched record's
      INFO, for the allele at index `i` of that record. */
  function EvalField(flt: DbSnpFilter, f: string, hit: Hit, i: nat, ev: Evaluation,
                     parseInt: string -> Option<int>): (r: Result<Evaluation>)
    requires f in hit.info
    ensures r.Err? <==> f == "CAF" && CafMalformed(hit.info[f], i)
    ensures r.Err? ==> r.error == CafError(hit.info[f])
    ensures r.Ok? ==> r.value.filter == (!Clears(flt, f, hit) && (ev.filter || Sets(flt, f, hit, i, parseInt)))
    ensures r.Ok? ==> r.value.annot.Keys <= ev.annot.Keys + {f}
  {
    var v := hit.info[f];
    if f == "CAF" then
      match v
      case Text(s) =>
        var parts := Split(s, ',');
        if i + 1 >= |parts| then Err(IndexError)
        else
          var val := parts[i + 1];
          Ok(Evaluation(ev.filter || CafFilters(flt, val, parseInt), ev.annot["CAF" := Text(val)]))
      case _ => Err(AttributeError)
    else if f == "COMMON" && |hit.alleles| == 1 then
      var common := flt.freq.Some? && flt.freq.value <= 0.01 && v == Text("1");
      var rare := flt.minFreq.Some? && flt.minFreq.value <= 0.01 && v == Text("0");
      Ok(Evaluation(ev.filter || common || rare, ev.annot[f := v]))
    else if f == "G5A" || (f == "G5" && |hit.alleles| == 1) then
      var set5 := flt.freq.Some? && flt.freq.value <= 0.05 && Truthy(v);
      var clear5 := flt.minFreq.Some? && flt.minFreq.value <= 0.05 && Truthy(v);
      Ok(Evaluation(if clear5 then false else ev.filter || set5, ev.annot[f := One]))
    else Ok(ev)
  }

  /** The declared frequency fields in order, skipping those the matched
      record does not carry. */
  function EvalFields(flt: DbSnpFilter, fields: seq<string>, hit: Hit, i: nat,
                      parseInt: string -> Option<int>): (r: Result<Evaluation>)
    ensures r.Err? <==> "CAF" in fields && "CAF" in hit.info && CafMalformed(hit.info["CAF"], i)
    ensures r.Err? ==> r.error == CafError(hit.info["CAF"])
    ensures r.Ok? ==> forall f :: f in r.value.annot ==> f in fields && f in hit.info
    decreases |fields|
  {
    if fields == [] then Ok(Evaluation(false, map[]))
    else
      var ev :- EvalFields(flt, fields[..|fields| - 1], hit, i, parseInt);
      var f := fields[|fields| - 1];
      if f !in hit.info then Ok(ev) else EvalField(flt, f, hit, i, ev, parseInt)
  }

  lemma {:induction false} EvalFieldsKeepsError(flt: DbSnpFilter, fields: seq<string>, j: nat, hit: Hit, i: nat,
                                                parseInt: string -> Option<int>)
    requires j <= |fields|
    requires EvalFields(flt, fields[..j], hit, i, parseInt).Err?
    ensures EvalFields(flt, fields, hit, i, parseInt) == EvalFields(flt, fields[..j], hit, i, parseInt)
    decreases |fields| - j
  {
    if j < |fields| {
      assert fields[..j + 1][..j] == fields[..j];
      EvalFieldsKeepsError(flt, fields, j + 1, hit, i, parseInt);
    } else {
      assert fields[..j] == fields;
    }
  }

  /** Field `j` of `fields` decides the filter: the record carries it, it
      sets the filter without clearing it, and no later field the record
      carries clears it. */
  predicate DecidesAt(flt: DbSnpFilter, fields: seq<string>, j: nat, hit: Hit, i: nat,
                      parseInt: string -> Option<int>)
    requires j < |fields|
  {
    && fields[j] in hit.info
    && Sets(flt, fields[j], hit, i, parseInt)
    && !Clears(flt, fields[j], hit)
    && forall k :: j < k < |fields| && fields[k] in hit.info ==> !Clears(flt, fields[k], hit)
  }

  /** Some field decides the filter. */
  predicate Decided(flt: DbSnpFilter, fields: seq<string>, hit: Hit, i: nat,
                    parseInt: string -> Option<int>)
  {
    exists j :: 0 <= j < |fields| && DecidesAt(flt, fields, j, hit, i, parseInt)
  }

  lemma DecidesAtStep(flt: DbSnpFilter, fields: seq<string>, j: nat, hit: Hit, i: nat,
                      parseInt: string -> Option<int>)
    requires j < |fields| - 1
    ensures var n := |fields| - 1;
            DecidesAt(flt, fields, j, hit, i, parseInt) <==>
            DecidesAt(flt, fields[..n], j, hit, i, parseInt) &&
            (fields[n] in hit.info ==> !Clears(flt, fields[n], hit))
  {
    var n := |fields| - 1;
    assert forall k :: j < k < n ==> fields[..n][k] == fields[k];
  }

  /** Adding one field to the end: a field the record lacks changes
      nothing, a clearing field decides "keep", any other field decides
      "filter" when it sets or an earlier field already decided. */
  lemma DecidedStep(flt: DbSnpFilter, fields: seq<string>, hit: Hit, i: nat,
                    parseInt: string -> Option<int>)
    requires fields != []
    ensures var n := |fields| - 1;
            var f := fields[n];
            Decided(flt, fields, hit, i, parseInt) <==>
            if f !in hit.info then Decided(flt, fields[..n], hit, i, parseInt)
            else !Clears(flt, f, hit) && (Decided(flt, fields[..n], hit, i, parseInt) || Sets(flt, f, hit, i, parseInt))
  {
    var n := |fields| - 1;
    var f := fields[n];
    if Decided(flt, fields, hit, i, parseInt) {
      var j :| 0 <= j < |fields| && DecidesAt(flt, fields, j, hit, i, parseInt);
      if j < n {
        DecidesAtStep(flt, fields, j, hit, i, parseInt);
      }
    }
    if f !in hit.info || !Clears(flt, f, hit) {
      if Decided(flt, fields[..n], hit, i, parseInt) {
        var j :| 0 <= j < n && DecidesAt(flt, fields[..n], j, hit, i, parseInt);
        DecidesAtStep(flt, fields, j, hit, i, parseInt);
      } else if f in hit.info && Sets(flt, f, hit, i, parseInt) {
        assert DecidesAt(flt, fields, n, hit, i, parseInt);
      }
    }
  }

  /** The field loop filters the allele exactly when some field the record
      carries sets the filter and no field after it clears it
      (vape/filter.py:77-115). */
  lemma {:induction false} EvalFieldsFilter(flt: DbSnpFilter, fields: seq<string>, hit: Hit, i: nat,
                                            parseInt: string -> Option<int>)
    requires EvalFields(flt, fields, hit, i, parseInt).Ok?
    ensures EvalFields(flt, fields, hit, i, parseInt).value.filter <==> Decided(flt, fields, hit, i, parseInt)
    decreases |fields|
  {
    if fields != [] {
      EvalFieldsFilter(flt, fields[..|fields| - 1], hit, i, parseInt);
      DecidedStep(flt, fields, hit, i, parseInt);
    }
  }

  /** A CAF element that is not an integer is skipped: the filter decision
      is the one the record would get without CAF, and CAF raises nothing. */
  lemma {:induction false} UnparseableCafIgnored(flt: DbSnpFilter, fields: seq<string>, hit: Hit, i: nat,
                                                 parseInt: string -> Option<int>)
    requires "CAF" in hit.info && hit.info["CAF"].Text?
    requires i + 1 < |Split(hit.info["CAF"].s, ',')|
    requires parseInt(Split(hit.info["CAF"].s, ',')[i + 1]).None?
    ensures EvalFields(flt, fields, hit, i, parseInt).Ok?
    ensures EvalFields(flt, fields, Hit(hit.alleles, hit.info - {"CAF"}), i, parseInt).Ok?
    ensures EvalFields(flt, fields, hit, i, parseInt).value.filter ==
            EvalFields(flt, fields, Hit(hit.alleles, hit.info - {"CAF"}), i, parseInt).value.filter
    decreases |fields|
  {
    if fields != [] {
      UnparseableCafIgnored(flt, fields[..|fields| - 1], hit, i, parseInt);
    }
  }

  /** The outcome for one allele: `(do_filter, do_keep, annot)`. */
  datatype Comparison = Comparison(filter: bool, keep: bool, annot: map<string, Value>)

  /** `_compare_snp_values(alt_allele, hits)`.  After the fields, a matched
      record carrying CLNALLE enters the ClinVar branch, whose first step
      reads the undefined name `clinvars`. */
  function Compare(flt: DbSnpFilter, a: DecomposedAllele, hits: seq<Hit>,
                   parseInt: string -> Option<int>): (r: Result<Comparison>)
    ensures r.Ok? ==> !r.value.keep
    ensures r.Err? <==>
            && FirstMatch(a, hits).Some?
            && var (h, i) := FirstMatch(a, hits).value;
               || ("CAF" in flt.freqFields.order && "CAF" in hits[h].info && CafMalformed(hits[h].info["CAF"], i))
               || "CLNALLE" in hits[h].info
    ensures r.Err? ==>
            var (h, i) := FirstMatch(a, hits).value;
            r.error == if "CAF" in flt.freqFields.order && "CAF" in hits[h].info && CafMalformed(hits[h].info["CAF"], i)
                       then CafError(hits[h].info["CAF"])
                       else NameError("clinvars")
  {
    match FirstMatch(a, hits)
    case None => Ok(Comparison(false, false, map[]))
    case Some((h, i)) =>
      var ev :- EvalFields(flt, flt.freqFields.order, hits[h], i, parseInt);
      if "CLNALLE" in hits[h].info then Err(NameError("clinvars"))
      else Ok(Comparison(ev.filter, false, ev.annot))
  }

  /** The loop over the declared frequency fields for the matched record. */
  method EvaluateFields(flt: DbSnpFilter, hit: Hit, i: nat, parseInt: string -> Option<int>)
    returns (r: Result<Evaluation>)
    ensures r == EvalFields(flt, flt.freqFields.order, hit, i, parseInt)
  {
    var fields := flt.freqFields.order;
    var doFilter := false;
    var annot: map<string, Value> := map[];
    var j := 0;
    while j < |fields|
      invariant j <= |fields|
      invariant EvalFields(flt, fields[..j], hit, i, parseInt) == Ok(Evaluation(doFilter, annot))
    {
      assert fields[..j + 1][..j] == fields[..j];
      var f := fields[j];
      if f !in hit.info {
        j := j + 1;
        continue;
      }
      var next := VisitField(flt, f, hit, i, Evaluation(doFilter, annot), parseInt);
      if next.Err? {
        EvalFieldsKeepsError(flt, fields, j + 1, hit, i, parseInt);
        return Err(next.error);
      }
      doFilter, annot := next.value.filter, next.value.annot;
      j := j + 1;
    }
    assert fields[..j] == fields;
    r := Ok(Evaluation(doFilter, annot));
  }

  /** The body of the field loop for one field the record carries
      (vape/filter.py:79-115). */
  method VisitField(flt: DbSnpFilter, f: string, hit: Hit, i: nat, ev: Evaluation,
                    parseInt: string -> Option<int>) returns (r: Result<Evaluation>)
    requires f in hit.info
    ensures r == EvalField(flt, f, hit, i, ev, parseInt)
  {
    var doFilter, annot := ev.filter, ev.annot;
    var v := hit.info[f];
    if f == "CAF" {
      if !v.Text? {
        return Err(AttributeError);
      }
      var parts := Split(v.s, ',');
      if i + 1 >= |parts| {
        return Err(IndexError);
      }
      var val := parts[i + 1];
      annot := annot["CAF" := Text(val)];
      if flt.freq.Some? {
        var n := parseInt(val);
        if n.Some? && n.value as real >= flt.freq.value {
          doFilter := true;
        }
      }
      if flt.minFreq.Some? {
        var n := parseInt(val);
        if n.Some? && (n.value as real) < flt.minFreq.value {
          doFilter := true;
        }
      }
    } else if f == "COMMON" && |hit.alleles| == 1 {
      annot := annot[f := v];
      if flt.freq.Some? && flt.freq.value <= 0.01 {
        if v == Text("1") {
          doFilter := true;
        }
      }
      if flt.minFreq.Some? && flt.minFreq.value <= 0.01 {
        if v == Text("0") {
          doFilter := true;
        }
      }
    } else if f == "G5A" || (f == "G5" && |hit.alleles| == 1) {
      annot := annot[f := One];
      if flt.freq.Some? && flt.freq.value <= 0.05 {
        if Truthy(v) {
          doFilter := true;
        }
      }
      if flt.minFreq.Some? && flt.minFreq.value <= 0.05 {
        if Truthy(v) {
          doFilter := false;
        }
      }
    }
    r := Ok(Evaluation(doFilter, annot));
  }

  /** `_compare_snp_values` (vape/filter.py:65-135): scan the records and
      their alleles for the first equal allele, evaluate the frequency
      fields there and stop. */
  method CompareSnpValues(flt: DbSnpFilter, a: DecomposedAllele, hits: seq<Hit>,
                          parseInt: string -> Option<int>) returns (r: Result<Comparison>)
    ensures r == Compare(flt, a, hits, parseInt)
  {
    var h := 0;
    while h < |hits|
      invariant h <= |hits|
      invariant forall g :: 0 <= g < h ==> a !in hits[g].alleles
    {
      var snp := hits[h];
      var i := 0;
      while i < |snp.alleles|
        invariant i <= |snp.alleles|
        invariant a !in snp.alleles[..i]
      {
        if a == snp.alleles[i] {
          FirstMatchAt(a, hits, h, i);
          var ev := EvaluateFields(flt, snp, i, parseInt);
          if ev.Err? {
            return Err(ev.error);
          }
          if "CLNALLE" in snp.info {
            return Err(NameError("clinvars"));
          }
          return Ok(Comparison(ev.value.filter, false, ev.value.annot));
        }
        assert snp.alleles[..i + 1] == snp.alleles[..i] + [snp.alleles[i]];
        i := i + 1;
      }
      assert snp.alleles[..i] == snp.alleles;
      h := h + 1;
    }
    FirstMatchExactly(a, hits);
    r := Ok(Comparison(false, false, map[]));
  }

  // ---------------------------------------------------------------------
  // Annotating a record (vape/filter.py:37-63)
  // ---------------------------------------------------------------------

  /** The comparisons for the alleles in order; the first failure ends
      the call. */
  function Comparisons(flt: DbSnpFilter, alleles: seq<DecomposedAllele>, hits: seq<Hit>,
                       parseInt: string -> Option<int>): (r: Result<seq<Comparison>>)
    ensures r.Ok? ==> |r.value| == |alleles|
    decreases |alleles|
  {
    if alleles == [] then Ok([])
    else
      var cs :- Comparisons(flt, alleles[..|alleles| - 1], hits, parseInt);
      var c :- Compare(flt, alleles[|alleles| - 1], hits, parseInt);
      Ok(cs + [c])
  }

  /** `filter_alleles`, `keep_alleles` and the union of the annotation keys. */
  function Filters(cs: seq<Comparison>): (r: seq<bool>)
    ensures |r| == |cs| && forall k :: 0 <= k < |cs| ==> r[k] == cs[k].filter
  {
    seq(|cs|, k requires 0 <= k < |cs| => cs[k].filter)
  }

  function Keeps(cs: seq<Comparison>): (r: seq<bool>)
    ensures |r| == |cs| && forall k :: 0 <= k < |cs| ==> r[k] == cs[k].keep
  {
    seq(|cs|, k requires 0 <= k < |cs| => cs[k].keep)
  }

  function AnnotKeys(cs: seq<Comparison>): (r: set<string>)
    ensures forall f :: f in r <==> exists k :: 0 <= k < |cs| && f in cs[k].annot
    decreases |cs|
  {
    if cs == [] then {}
    else
      var r := AnnotKeys(cs[..|cs| - 1]) + cs[|cs| - 1].annot.Keys;
      assert forall f :: f in r <==> exists k :: 0 <= k < |cs| && f in cs[k].annot by {
        forall f
          ensures f in r <==> exists k :: 0 <= k < |cs| && f in cs[k].annot
        {
          if exists k :: 0 <= k < |cs| && f in cs[k].annot {
            var k :| 0 <= k < |cs| && f in cs[k].annot;
            if k < |cs| - 1 {
              assert cs[..|cs| - 1][k] == cs[k];
            }
          }
          if f in AnnotKeys(cs[..|cs| - 1]) {
            var k :| 0 <= k < |cs| - 1 && f in cs[..|cs| - 1][k].annot;
            assert cs[k] == cs[..|cs| - 1][k];
          }
        }
      }
      r
  }

  /** The INFO column of field `f`: one entry per allele, `.` where the
      allele's annotation lacks `f`. */
  function Column(cs: seq<Comparison>, f: string): (col: seq<Value>)
    ensures |col| == |cs|
    ensures forall k :: 0 <= k < |cs| ==> col[k] == if f in cs[k].annot then cs[k].annot[f] else Text(".")
  {
    seq(|cs|, k requires 0 <= k < |cs| => if f in cs[k].annot then cs[k].annot[f] else Text("."))
  }

  /** The INFO columns for the comparisons `cs`: one per field some
      allele was annotated with, one entry per allele, `.` for the alleles
      not annotated with it; None when no allele was annotated. */
  function InfoColumns(cs: seq<Comparison>): (r: Option<map<string, seq<Value>>>)
    ensures r.None? <==> forall k :: 0 <= k < |cs| ==> cs[k].annot == map[]
    ensures r.Some? ==> forall f :: f in r.value <==> exists k :: 0 <= k < |cs| && f in cs[k].annot
    ensures r.Some? ==> forall f :: f in r.value ==>
              |r.value[f]| == |cs| && forall k :: 0 <= k < |cs| ==> r.value[f][k] == Padded(cs[k].annot, f)
  {
    var keys := AnnotKeys(cs);
    if keys == {} then None
    else Some(map f | f in keys :: Column(cs, f))
  }

  /** What `annotate_and_filter_record` produces: the two flag lists and
      the INFO columns added to the record (None when no field was seen,
      in which case the record is left alone). */
  datatype Annotated = Annotated(filters: seq<bool>, keeps: seq<bool>, info: Option<map<string, seq<Value>>>)

  function Annotate(flt: DbSnpFilter, alleles: seq<DecomposedAllele>, hits: seq<Hit>,
                    parseInt: string -> Option<int>): (r: Result<Annotated>)
    ensures r.Ok? ==> |r.value.filters| == |alleles| && |r.value.keeps| == |alleles|
  {
    var cs :- Comparisons(flt, alleles, hits, parseInt);
    Ok(Annotated(Filters(cs), Keeps(cs), InfoColumns(cs)))
  }

  lemma {:induction false} ComparisonsKeepsError(flt: DbSnpFilter, alleles: seq<DecomposedAllele>, i: nat,
                                                 hits: seq<Hit>, parseInt: string -> Option<int>)
    requires i <= |alleles|
    requires Comparisons(flt, alleles[..i], hits, parseInt).Err?
    ensures Comparisons(flt, alleles, hits, parseInt) == Comparisons(flt, alleles[..i], hits, parseInt)
    decreases |alleles| - i
  {
    if i < |alleles| {
      assert alleles[..i + 1][..i] == alleles[..i];
      ComparisonsKeepsError(flt, alleles, i + 1, hits, parseInt);
    } else {
      assert alleles[..i] == alleles;
    }
  }

  /** The first loop of `annotate_and_filter_record`: one comparison per
      allele, appended to the three lists, with the annotation keys
      collected. */
  method CompareAlleles(flt: DbSnpFilter, alleles: seq<DecomposedAllele>, hits: seq<Hit>,
                        parseInt: string -> Option<int>)
    returns (r: Result<seq<Comparison>>, filterAlleles: seq<bool>, keepAlleles: seq<bool>, allAnnots: set<string>)
    ensures r == Comparisons(flt, alleles, hits, parseInt)
    ensures r.Ok? ==> filterAlleles == Filters(r.value) && keepAlleles == Keeps(r.value)
                      && allAnnots == AnnotKeys(r.value)
  {
    var annotations: seq<Comparison> := [];
    filterAlleles, keepAlleles, allAnnots := [], [], {};
    var i := 0;
    while i < |alleles|
      invariant i <= |alleles|
      invariant Comparisons(flt, alleles[..i], hits, parseInt) == Ok(annotations)
      invariant filterAlleles == Filters(annotations) && keepAlleles == Keeps(annotations)
      invariant allAnnots == AnnotKeys(annotations)
    {
      assert alleles[..i + 1][..i] == alleles[..i];
      var c := CompareSnpValues(flt, alleles[i], hits, parseInt);
      if c.Err? {
        ComparisonsKeepsError(flt, alleles, i + 1, hits, parseInt);
        return Err(c.error), filterAlleles, keepAlleles, allAnnots;
      }
      ComparisonsAppend(annotations, c.value);
      filterAlleles := filterAlleles + [c.value.filter];
      keepAlleles := keepAlleles + [c.value.keep];
      annotations := annotations + [c.value];
      allAnnots := allAnnots + c.value.annot.Keys;
      i := i + 1;
    }
    assert alleles[..i] == alleles;
    r := Ok(annotations);
  }

  /** One more comparison adds one flag to each list and its keys to the
      union. */
  lemma ComparisonsAppend(cs: seq<Comparison>, c: Comparison)
    ensures Filters(cs + [c]) == Filters(cs) + [c.filter]
    ensures Keeps(cs + [c]) == Keeps(cs) + [c.keep]
    ensures AnnotKeys(cs + [c]) == AnnotKeys(cs) + c.annot.Keys
  {
    assert (cs + [c])[..|cs|] == cs;
  }

  /** The column of one field, built allele by allele. */
  method BuildColumn(cs: seq<Comparison>, f: string) returns (col: seq<Value>)
    ensures col == Column(cs, f)
  {
    col := [];
    var i := 0;
    while i < |cs|
      invariant i <= |cs|
      invariant |col| == i
      invariant forall k :: 0 <= k < i ==> col[k] == if f in cs[k].annot then cs[k].annot[f] else Text(".")
    {
      if f in cs[i].annot {
        col := col + [cs[i].annot[f]];
      } else {
        col := col + [Text(".")];
      }
      i := i + 1;
    }
  }

  /** `annotate_and_filter_record` with the region query's result given as
      `hits`; instead of adding the INFO columns to the record, the model
      returns them. */
  method AnnotateAndFilterRecord(flt: DbSnpFilter, alleles: seq<DecomposedAllele>, hits: seq<Hit>,
                                 parseInt: string -> Option<int>) returns (r: Result<Annotated>)
    ensures r == Annotate(flt, alleles, hits, parseInt)
  {
    var compared, filterAlleles, keepAlleles, allAnnots := CompareAlleles(flt, alleles, hits, parseInt);
    if compared.Err? {
      return Err(compared.error);
    }
    var annotations := compared.value;
    var infoToAdd: map<string, seq<Value>> := map[];
    var rest := allAnnots;
    while rest != {}
      invariant rest <= allAnnots
      invariant infoToAdd.Keys == allAnnots - rest
      invariant forall f :: f in infoToAdd ==> infoToAdd[f] == Column(annotations, f)
      decreases rest
    {
      var f :| f in rest;
      var col := BuildColumn(annotations, f);
      infoToAdd := infoToAdd[f := col];
      rest := rest - {f};
    }
    assert infoToAdd == map f | f in allAnnots :: Column(annotations, f);
    if infoToAdd != map[] {
      r := Ok(Annotated(filterAlleles, keepAlleles, Some(infoToAdd)));
    } else {
      r := Ok(Annotated(filterAlleles, keepAlleles, None));
    }
  }

  // ---------------------------------------------------------------------
  // Properties
  // ---------------------------------------------------------------------

  /** The frequency fields a loaded filter consults are the declared ones
      among CAF, G5A, G5, COMMON, in that order. */
  lemma ConfiguredFreqFields(info: map<string, seq<FieldMeta>>, freq: Option<real>, minFreq: Option<real>,
                             clinvarPath: bool)
    requires Configure(info, freq, minFreq, clinvarPath).Ok?
    ensures Configure(info, freq, minFreq, clinvarPath).value.freqFields.order == Present(FreqFieldNames, info)
    ensures forall f :: f in Configure(info, freq, minFreq, clinvarPath).value.freqFields.order <==>
                        f in FreqFieldNames && f in info
  {
    DeclaredInOrder(FreqFieldNames, info);
  }

  /** An allele that no overlapping dbSNP record holds is neither filtered
      nor kept nor annotated. */
  lemma CompareWithoutMatch(flt: DbSnpFilter, a: DecomposedAllele, hits: seq<Hit>,
                            parseInt: string -> Option<int>)
    requires forall h :: 0 <= h < |hits| ==> a !in hits[h].alleles
    ensures Compare(flt, a, hits, parseInt) == Ok(Comparison(false, false, map[]))
  {
    FirstMatchExactly(a, hits);
  }

  lemma {:induction false} FirstMatchIgnoresLater(a: DecomposedAllele, hits: seq<Hit>, more: seq<Hit>)
    requires FirstMatch(a, hits).Some?
    ensures FirstMatch(a, hits + more) == FirstMatch(a, hits)
    decreases |hits|
  {
    assert (hits + more)[0] == hits[0];
    if IndexIn(a, hits[0].alleles).None? {
      assert (hits + more)[1..] == hits[1..] + more;
      FirstMatchIgnoresLater(a, hits[1..], more);
    }
  }

  /** Only the first dbSNP record holding the allele is consulted: records
      after it change nothing. */
  lemma CompareIgnoresLaterHits(flt: DbSnpFilter, a: DecomposedAllele, hits: seq<Hit>, more: seq<Hit>,
                                parseInt: string -> Option<int>)
    requires exists h :: 0 <= h < |hits| && a in hits[h].alleles
    ensures Compare(flt, a, hits + more, parseInt) == Compare(flt, a, hits, parseInt)
  {
    FirstMatchExactly(a, hits);
    FirstMatchIgnoresLater(a, hits, more);
    var h := FirstMatch(a, hits).value.0;
    assert (hits + more)[h] == hits[h];
  }

  /** A matched record that carries CLNALLE makes the comparison fail
      with the NameError of the ClinVar branch once its frequency fields
      evaluate. */
  lemma CompareFailsOnClinvarAllele(flt: DbSnpFilter, a: DecomposedAllele, hits: seq<Hit>, h: nat, i: nat,
                                    parseInt: string -> Option<int>)
    requires h < |hits| && i < |hits[h].alleles| && hits[h].alleles[i] == a
    requires a !in hits[h].alleles[..i]
    requires forall g :: 0 <= g < h ==> a !in hits[g].alleles
    requires "CLNALLE" in hits[h].info
    requires EvalFields(flt, flt.freqFields.order, hits[h], i, parseInt).Ok?
    ensures Compare(flt, a, hits, parseInt) == Err(NameError("clinvars"))
  {
    FirstMatchAt(a, hits, h, i);
  }

  /** An allele is filtered exactly when the first record holding it, at
      the allele's first position there, has a declared frequency field
      that sets the filter and no later one that clears it; an allele no
      record holds is never filtered. */
  lemma CompareFilter(flt: DbSnpFilter, a: DecomposedAllele, hits: seq<Hit>,
                      parseInt: string -> Option<int>)
    requires Compare(flt, a, hits, parseInt).Ok?
    ensures Compare(flt, a, hits, parseInt).value.filter <==>
            && FirstMatch(a, hits).Some?
            && var (h, i) := FirstMatch(a, hits).value;
               Decided(flt, flt.freqFields.order, hits[h], i, parseInt)
  {
    if FirstMatch(a, hits).Some? {
      var (h, i) := FirstMatch(a, hits).value;
      EvalFieldsFilter(flt, flt.freqFields.order, hits[h], i, parseInt);
    }
  }

  /** For a dbSNP record with several alleles, COMMON and G5 play no part:
      the evaluation is the same as for the record without them. */
  lemma {:induction false} EvalFieldsMultiAllelic(flt: DbSnpFilter, fields: seq<string>, hit: Hit, i: nat,
                                                  parseInt: string -> Option<int>)
    requires |hit.alleles| != 1
    ensures EvalFields(flt, fields, hit, i, parseInt) ==
            EvalFields(flt, fields, Hit(hit.alleles, hit.info - {"COMMON", "G5"}), i, parseInt)
    decreases |fields|
  {
    if fields != [] {
      EvalFieldsMultiAllelic(flt, fields[..|fields| - 1], hit, i, parseInt);
    }
  }

  /** Splitting two separator-free pieces joined by the separator. */
  lemma SplitPair(x: string, y: string, sep: char)
    requires sep !in x && sep !in y
    ensures Split(x + [sep] + y, sep) == [x, y]
  {
    var parts := [x, y];
    assert parts[1..] == [y];
    assert Join(parts, sep) == x + [sep] + y;
    SplitJoin(parts, sep);
  }

  /** CAF is compared with integer parsing: with the thresholds 0.01 and
      0.05, a CAF alternate frequency of 0.1 that does not parse as an
      integer leaves the allele unfiltered, though 0.1 lies above both. */
  lemma CafFractionIsSkipped(flt: DbSnpFilter, a: DecomposedAllele, parseInt: string -> Option<int>)
    requires flt.freq == Some(0.01) && flt.minFreq == Some(0.05)
    requires flt.freqFields.order == ["CAF"]
    requires parseInt("0.1") == None
    ensures Compare(flt, a, [Hit([a], map["CAF" := Text("0.9,0.1")])], parseInt) ==
            Ok(Comparison(false, false, map["CAF" := Text("0.1")]))
  {
    var hit := Hit([a], map["CAF" := Text("0.9,0.1")]);
    FirstMatchAt(a, [hit], 0, 0);
    CafFractionEvaluation(flt, hit, parseInt);
  }

  lemma CafFractionEvaluation(flt: DbSnpFilter, hit: Hit, parseInt: string -> Option<int>)
    requires flt.freq == Some(0.01) && flt.minFreq == Some(0.05)
    requires parseInt("0.1") == None
    requires hit.info == map["CAF" := Text("0.9,0.1")]
    ensures EvalFields(flt, ["CAF"], hit, 0, parseInt) == Ok(Evaluation(false, map["CAF" := Text("0.1")]))
  {
    SplitCafFraction();
    var fields := ["CAF"];
    assert fields[..0] == [];
    assert EvalField(flt, "CAF", hit, 0, Evaluation(false, map[]), parseInt)
        == Ok(Evaluation(false, map["CAF" := Text("0.1")]));
  }

  lemma SplitCafFraction()
    ensures Split("0.9,0.1", ',') == ["0.9", "0.1"]
  {
    assert "0.9,0.1" == "0.9" + [','] + "0.1";
    SplitPair("0.9", "0.1", ',');
  }

  /** G5A is consulted after CAF and clears the filter when `min_freq` is
      at most 0.05: an allele that CAF marks common is kept by a G5A flag. */
  lemma G5aClearsCafFilter(flt: DbSnpFilter, a: DecomposedAllele, parseInt: string -> Option<int>)
    requires flt.freq == Some(0.01) && flt.minFreq == Some(0.05)
    requires flt.freqFields.order == ["CAF", "G5A"]
    requires parseInt("1") == Some(1)
    ensures CafFilters(flt, "1", parseInt)
    ensures Compare(flt, a, [Hit([a], map["CAF" := Text("0,1"), "G5A" := Flag])], parseInt) ==
            Ok(Comparison(false, false, map["CAF" := Text("1"), "G5A" := One]))
  {
    var hit := Hit([a], map["CAF" := Text("0,1"), "G5A" := Flag]);
    FirstMatchAt(a, [hit], 0, 0);
    var fields := ["CAF", "G5A"];
    assert fields[..1] == ["CAF"];
    var caf := Evaluation(true, map["CAF" := Text("1")]);
    CafCommonEvaluation(flt, hit, parseInt);
    assert EvalField(flt, "G5A", hit, 0, caf, parseInt) == Ok(Evaluation(false, map["CAF" := Text("1"), "G5A" := One]));
  }

  lemma CafCommonEvaluation(flt: DbSnpFilter, hit: Hit, parseInt: string -> Option<int>)
    requires flt.freq == Some(0.01) && flt.minFreq == Some(0.05)
    requires parseInt("1") == Some(1)
    requires "CAF" in hit.info && hit.info["CAF"] == Text("0,1")
    ensures EvalFields(flt, ["CAF"], hit, 0, parseInt) == Ok(Evaluation(true, map["CAF" := Text("1")]))
  {
    assert "0,1" == "0" + [','] + "1";
    SplitPair("0", "1", ',');
    var fields := ["CAF"];
    assert fields[..0] == [];
    assert EvalField(flt, "CAF", hit, 0, Evaluation(false, map[]), parseInt)
        == Ok(Evaluation(true, map["CAF" := Text("1")]));
  }

    /** The comparisons for the alleles, one more at the end. */
  lemma ComparisonsStep(flt: DbSnpFilter, alleles: seq<DecomposedAllele>, hits: seq<Hit>,
                        parseInt: string -> Option<int>)
    requires alleles != []
    ensures Comparisons(flt, alleles, hits, parseInt) ==
              match Comparisons(flt, alleles[..|alleles| - 1], hits, parseInt)
              case Err(e) => Err(e)
              case Ok(cs) =>
                match Compare(flt, alleles[|alleles| - 1], hits, parseInt)
                case Err(e) => Err(e)
                case Ok(c) => Ok(cs + [c])
  {
  }

/** The comparisons are those of the alleles one by one; the list fails
      exactly when one of them does. */
  lemma {:induction false} ComparisonsPointwise(flt: DbSnpFilter, alleles: seq<DecomposedAllele>, hits: seq<Hit>,
                                                parseInt: string -> Option<int>)
    ensures Comparisons(flt, alleles, hits, parseInt).Ok? <==>
            forall k :: 0 <= k < |alleles| ==> Compare(flt, alleles[k], hits, parseInt).Ok?
    ensures Comparisons(flt, alleles, hits, parseInt).Ok? ==>
            forall k :: 0 <= k < |alleles| ==>
              Comparisons(flt, alleles, hits, parseInt).value[k] == Compare(flt, alleles[k], hits, parseInt).value
    decreases |alleles|
  {
    if alleles != [] {
      var init := alleles[..|alleles| - 1];
      var last := alleles[|alleles| - 1];
      ComparisonsPointwise(flt, init, hits, parseInt);
      ComparisonsStep(flt, alleles, hits, parseInt);
      forall k | 0 <= k < |init| ensures init[k] == alleles[k] { }
    }
  }

  /** `annotate_and_filter_record` sets one filter flag per allele, from
      that allele's comparison, and never keeps an allele. */
  lemma AnnotateFlags(flt: DbSnpFilter, alleles: seq<DecomposedAllele>, hits: seq<Hit>,
                      parseInt: string -> Option<int>)
    requires Annotate(flt, alleles, hits, parseInt).Ok?
    ensures forall k :: 0 <= k < |alleles| ==> Compare(flt, alleles[k], hits, parseInt).Ok?
    ensures forall k :: 0 <= k < |alleles| ==>
              Annotate(flt, alleles, hits, parseInt).value.filters[k] == Compare(flt, alleles[k], hits, parseInt).value.filter
    ensures forall k :: 0 <= k < |alleles| ==> !Annotate(flt, alleles, hits, parseInt).value.keeps[k]
  {
    ComparisonsPointwise(flt, alleles, hits, parseInt);
  }

  /** The INFO columns `annotate_and_filter_record` adds are those of the
      alleles' comparisons one by one. */
  lemma AnnotateColumns(flt: DbSnpFilter, alleles: seq<DecomposedAllele>, hits: seq<Hit>,
                        parseInt: string -> Option<int>)
    requires Annotate(flt, alleles, hits, parseInt).Ok?
    ensures forall k :: 0 <= k < |alleles| ==> Compare(flt, alleles[k], hits, parseInt).Ok?
    ensures Annotate(flt, alleles, hits, parseInt).value.info ==
            InfoColumns(seq(|alleles|, k requires 0 <= k < |alleles| => Compare(flt, alleles[k], hits, parseInt).value))
  {
    ComparisonsPointwise(flt, alleles, hits, parseInt);
    var cs := Comparisons(flt, alleles, hits, parseInt).value;
    assert cs == seq(|alleles|, k requires 0 <= k < |alleles| => Compare(flt, alleles[k], hits, parseInt).value);
  }

  /** The entry of field `f` for one allele: its annotation, or `.`. */
  function Padded(annot: map<string, Value>, f: string): (v: Value)
    ensures f in annot ==> v == annot[f]
    ensures f !in annot ==> v == Text(".")
  {
    if f in annot then annot[f] else Text(".")
  }
}
