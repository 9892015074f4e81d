# vape variant filter engine — a Dafny model

This project models the per-allele filter engine of vape, the variant
annotation and prioritisation tool. It has three filters, each decided per
alternate allele of a VCF record.

- **`InSilicoFilter`** (`vape/insilico_filter.py`). It reads a TSV registry of
  in silico prediction programs; each program is categorical ("pred") or
  numeric ("score"). It resolves `prog` / `prog=value` tokens into the
  categorical label sets (`pred_filters`) and numeric thresholds
  (`score_filters`) to use. `filter(csq)` then decides whether a missense
  consequence annotation is filtered, under the policy flags
  `filter_unpredicted` and `keep_if_any_damaging`.
- **`VepFilter`** (`vape/vep_filter.py`). It reads the consequence-class and
  biotype tables and resolves the requested classes and biotypes, with the
  `default` and `all` sentinels. It optionally builds an `InSilicoFilter`.
  `filter(record)` starts every alternate allele as "filter". Each
  qualifying VEP annotation that has a configured class clears its allele,
  or sets the in silico verdict for `missense_variant`; the last write wins.
- **`dbSnpFilter`** (`vape/filter.py`). For each decomposed alternate allele it
  finds the first equal decomposed allele among the overlapping dbSNP
  records. It then sets the allele's filter flag from the CAF, COMMON, G5
  and G5A INFO values against `freq` / `min_freq`. The values it used
  become INFO columns, one entry per allele, padded with `.`.

## Modules

- `outcomes.dfy` (`Outcomes`): `Option`, `Result` and the `Error`
  datatype. The model returns `Err` wherever Python raises, whether the
  raise is deliberate (`Exception(...)`) or incidental (`IndexError`,
  `KeyError`, `ValueError`, `AttributeError`, `NameError`).
- `text.dfy` (`Text`): the Python string operations the filters use.
  These are `split` with a one-character separator, ASCII `lower`,
  `rstrip`, `startswith`, and the substitution of the pattern
  `\(\d(\.\d+)?\)` by the empty string, with `\d` read as the ASCII
  digits.
- `insilico_registry.dfy` (`InSilicoRegistry`): the predictor registry and
  the loop that loads it from the table's lines.
- `insilico_filter.dfy` (`InSilico`): token resolution and the decision of
  `InSilicoFilter.filter`.
- `vep_filter.dfy` (`Vep`): the class/biotype tables, the construction of
  `VepFilter` and `VepFilter.filter`.
- `dbsnp_filter.dfy` (`DbSnp`): `get_dbsnp_annot_fields`, the threshold
  check of the constructor, `_compare_snp_values` and
  `annotate_and_filter_record`.

Every loop of the source is a `method` with a `while` loop. Each method is
proved equal to a specification function, and the lemmas are stated about
that function. The filter objects never change after construction, so they
are datatypes. Their dict-insertion order is kept as an explicit
sequence next to each map.

## Behaviour as written

Where the `InSilicoFilter.__init__` docstring (vape/insilico_filter.py:41-68) and the code disagree, the model follows
the code. The following are all proved as lemmas.

- **`keep_if_any_damaging` depends on program order.** A program that votes
  "benign" still returns True at once, whatever the flag says. So the
  outcome depends on which program comes first
  (`InSilico.KeepIfAnyDamagingDependsOnOrder`); it is not "keep if any
  program is damaging".
- **A categorical override does not become a label.** The code indexes
  `self.pred_filters[prog]` before that key exists, which raises KeyError.
  When the key does exist, `set(pred)` makes a set of single characters
  (`InSilico.ResolvePredOverride`, `InSilico.OverrideLabelsAreCharacters`).
- **CAF values are read with `int()`.** A fractional frequency such as
  `0.1` does not parse and is skipped, so it never filters
  (`DbSnp.CafFractionIsSkipped`).
- **G5/G5A are tested after CAF.** The condition reads as
  `f == 'G5A' or (f == 'G5' and single-allele)`. A G5A flag with
  `min_freq <= 0.05` clears a filter that CAF set
  (`DbSnp.G5aClearsCafFilter`).
- **`do_keep` is never set.** The ClinVar rescue branch reads the undefined
  name `clinvars`, so a matched dbSNP record carrying CLNALLE raises
  NameError (`DbSnp.CompareFailsOnClinvarAllele`).

## Model

| member | source | states |
|---|---|---|
| Text.Split | vape/insilico_filter.py:108 | `str.split` with a one-character separator never returns an empty list and no piece contains the separator |
| Text.Lower | vape/insilico_filter.py:113 | `lower()` keeps the length, lowers each ASCII letter, and leaves no upper-case letter |
| Text.RStrip | vape/insilico_filter.py:85 | `rstrip()` gives the prefix that ends in a non-space and drops only white space |
| Text.StripScores | vape/insilico_filter.py:4 | removing matches of `\(\d(\.\d+)?\)` never lengthens the text |
| Text.BracketedScoreMatches | vape/insilico_filter.py:4 | `(d)` and `(d.ddd)` are whole matches of the pattern |
| Text.StripScoresBracketFreePrefix | vape/insilico_filter.py:4 | text without `(` passes through the substitution unchanged |
| Text.StripScoresRemovesSuffix | vape/insilico_filter.py:4 | a label followed by a bracketed score strips to the bare label |
| InSilicoRegistry.AddRow | vape/insilico_filter.py:87-96 | a further row keeps the program's type; a `score` row for a numeric program, or a new `score` kind for a categorical one, raises; a categorical row appends its value to its kind and leaves the other kinds alone |
| InSilicoRegistry.NewEntry | vape/insilico_filter.py:97-103 | a program's first row makes it categorical unless its kind is `score`; a `score` row needs a value that converts with `float`, else ValueError |
| InSilicoRegistry.LoadLine | vape/insilico_filter.py:82-106 | a table line keeps the registry well-formed, ignores `#` lines and never drops a program |
| InSilicoRegistry.Load | vape/insilico_filter.py:82-106 | every loaded registry is well-formed: lower-cased names resolve to registry spellings and `lower=damaging` programs are registered |
| InSilicoRegistry.LoadRegistry | vape/insilico_filter.py:82-106 | the constructor's loop over the table lines computes `Load` |
| InSilicoRegistry.LoadTableLine | vape/insilico_filter.py:83-106 | the loop body for one line computes `LoadLine` |
| InSilicoRegistry.LoadSkipsComment | vape/insilico_filter.py:83-84 | a `#` line anywhere in the table has no effect |
| InSilicoRegistry.LoadRejectsSecondScore | vape/insilico_filter.py:87-96 | a `score` row for an already-registered program raises the duplicate-score error |
| InSilicoRegistry.LoadAppendsLabel | vape/insilico_filter.py:88-89 | a row of a kind the categorical program already has appends its value to that list |
| InSilicoRegistry.LoadFirstScoreRow | vape/insilico_filter.py:97-103 | a first `score` row makes the program numeric with the parsed default, or fails with ValueError |
| InSilicoRegistry.LowerMoreDamagingExactly | vape/insilico_filter.py:104-106 | a program is in `lower_more_damaging` exactly when some line names it with fourth column `lower=damaging` |
| InSilico.PutPred | vape/insilico_filter.py:129-132 | storing a label set: a new key goes last in dict order, an existing key keeps its place, and nothing else changes |
| InSilico.PutScore | vape/insilico_filter.py:122 | storing a threshold: a new key goes last in dict order, an existing key keeps its place, and nothing else changes |
| InSilico.Chars | vape/insilico_filter.py:132 | `set(pred)` holds one-character strings only |
| InSilico.Override | vape/insilico_filter.py:118-136 | a `prog=value` override for a numeric program adds only that threshold; a categorical override succeeds only if the program is already in `pred_filters`, and changes no keys |
| InSilico.ResolveToken | vape/insilico_filter.py:107-142 | a resolved token names a registered program (case-insensitively) and configures only registry programs of the matching kind |
| InSilico.ResolveTokenAddsItsProgram | vape/insilico_filter.py:107-142 | after a token, the configured programs are those before it plus the registry spelling of its name |
| InSilico.Resolve | vape/insilico_filter.py:107-142 | resolving the tokens in order keeps the filter well-formed, with every configured program from the registry, and succeeds only when every token names a registry program (case-insensitively) |
| InSilico.Unconfigured | vape/insilico_filter.py:72-78 | the filter before any token: well-formed, empty, with the registry's `lower_more_damaging` |
| InSilico.Build | vape/insilico_filter.py:72-142 | construction keeps the policy flags and yields a well-formed filter |
| InSilico.NewInSilicoFilter | vape/insilico_filter.py:72-142 | the constructor's loops compute `Build` |
| InSilico.NamedPrograms | vape/insilico_filter.py:113-117 | the programs a token list names are exactly the registry spellings of its tokens' names |
| InSilico.OverrideConfigures | vape/insilico_filter.py:118-136 | an accepted override configures its own program and no other |
| InSilico.ResolveConfiguresExactly | vape/insilico_filter.py:107-142 | a program is configured after construction exactly when it was configured before or some token names it |
| InSilico.ResolveTokenIgnoresCase | vape/insilico_filter.py:113-114 | tokens differing only in the case of the name resolve identically |
| InSilico.ResolveTokenRejectsUnknown | vape/insilico_filter.py:113-117 | an unknown program name raises "not recognised" |
| InSilico.ResolveBareName | vape/insilico_filter.py:137-142 | a bare numeric name gets the registry default threshold; a bare categorical name gets the `default` label list, or KeyError without one |
| InSilico.ResolveScoreOverride | vape/insilico_filter.py:119-126 | a numeric override is the parsed number, or fails with "score must be numeric" |
| InSilico.ResolvePredOverride | vape/insilico_filter.py:127-136 | a label in neither `default` nor `valid` raises; an accepted one raises KeyError for a program not yet configured, and otherwise stores `set(value)` |
| InSilico.TokenOfOverride | vape/insilico_filter.py:108-112 | `prog=value` splits into the name `prog` and the override `value` |
| InSilico.PredPrograms | vape/insilico_filter.py:155 | the categorical programs are visited in `pred_filters` order with their label sets |
| InSilico.ScorePrograms | vape/insilico_filter.py:169 | the numeric programs are visited in `score_filters` order with their thresholds and directions |
| InSilico.CategoricalDoFilter | vape/insilico_filter.py:157-162 | the inner loop's `do_filter` is set exactly when no `&`-part, with bracketed scores removed, is a configured label |
| InSilico.NumericDoFilter | vape/insilico_filter.py:174-187 | the inner loop's `do_filter` is set exactly when no parseable `&`-part meets the threshold in the program's direction |
| InSilico.ScanAppend | vape/insilico_filter.py:155-192 | the categorical loop decides first, and the numeric loop runs only when it returns nothing |
| InSilico.Visit | vape/insilico_filter.py:156-168 | one program's turn: a verdict, or nothing to let the loop continue |
| InSilico.VisitCategorical | vape/insilico_filter.py:155-168 | the loop over `pred_filters` returns the first program's verdict |
| InSilico.VisitNumeric | vape/insilico_filter.py:169-191 | the loop over `score_filters` returns the first program's verdict |
| InSilico.Filter | vape/insilico_filter.py:144-192 | `filter(csq)` computes the scan over categorical then numeric programs, and is False when no program decides |
| InSilico.ScanConsensus | vape/insilico_filter.py:155-192 | without `keep_if_any_damaging`, a consequence is filtered exactly when some program rejects it |
| InSilico.DecideConsensus | vape/insilico_filter.py:144-192 | for the whole filter without `keep_if_any_damaging`: filtered exactly when some configured program rejects it |
| InSilico.ScanOrderIrrelevant | vape/insilico_filter.py:155-192 | without `keep_if_any_damaging`, the program order does not matter |
| InSilico.ScanFailsOnlyOnMissingValue | vape/insilico_filter.py:156 | `filter` fails only with KeyError for a program the annotation lacks, and never when all are present |
| InSilico.ScanSkipsUndecided | vape/insilico_filter.py:167-172 | programs that decide nothing (empty value without `filter_unpredicted`) are skipped |
| InSilico.KeepIfFirstDecidingVoteDamaging | vape/insilico_filter.py:163-164 | with `keep_if_any_damaging`, a damaging vote from the first deciding program keeps the consequence |
| InSilico.KeepIfAnyDamagingDependsOnOrder | vape/insilico_filter.py:163-166 | with `keep_if_any_damaging`, swapping a benign and a damaging program changes the verdict from filter to keep |
| InSilico.CategoricalVoteIgnoresScore | vape/insilico_filter.py:158-160 | `probably_damaging(0.95)` and `probably_damaging` vote alike |
| InSilico.CategoricalVoteAnyPart | vape/insilico_filter.py:158-162 | a categorical value is damaging exactly when some `&`-part matches a label |
| InSilico.NumericVoteSingle | vape/insilico_filter.py:174-187 | a single score is damaging exactly when it parses and is ≤ (lower-damaging) or ≥ the threshold |
| InSilico.NumericVoteSkipsUnparseable | vape/insilico_filter.py:176-179 | a sub-value that does not parse is ignored |
| InSilico.OverrideLabelsAreCharacters | vape/insilico_filter.py:132 | a label stored by `set(value)` no longer matches a value of two or more characters |
| Vep.ValidNamesExactly | vape/vep_filter.py:75-88 | a name is valid exactly when some non-comment line with at least two columns has it first (`ListsName`) |
| Vep.DefaultNamesExactly | vape/vep_filter.py:86-87 | a name is a default exactly when some such line has `default` in its second column (`ListsDefault`) |
| Vep.DefaultsAreValid | vape/vep_filter.py:85-87 | every default name is a valid name |
| Vep.ValidAndDefault | vape/vep_filter.py:75-88 | `_get_valid_and_default` returns the defaults and the valid names of the table |
| Vep.Effective | vape/vep_filter.py:16-17 | an empty list is replaced by `['default']`; a given list is used as is |
| Vep.SelectExactly | vape/vep_filter.py:18-39 | selection succeeds exactly when every name is recognised; the result is the union of each name's selection, and an error names an unrecognised name |
| Vep.SelectNames | vape/vep_filter.py:16-39 | the class and biotype loops compute the selection of the effective names |
| Vep.Configure | vape/vep_filter.py:9-46 | a constructed filter has an in silico filter exactly when in silico tokens were given |
| Vep.EnumerationOfNothing | vape/vep_filter.py:43-44 | `set(in_silico)` is empty exactly when the token list is |
| Vep.NewVepFilter | vape/vep_filter.py:9-46 | the constructor computes `Configure` |
| Vep.PyIndex | vape/vep_filter.py:63 | Python list indexing with `alt_index - 1`: a negative index counts from the end, and an index out of range is IndexError |
| Vep.ApplyTerm | vape/vep_filter.py:61-66 | a configured term writes its verdict at the annotation's allele only; an unconfigured term changes nothing |
| Vep.ApplyTerms | vape/vep_filter.py:60-66 | the terms of an annotation change at most its allele's flag |
| Vep.ApplyCsq | vape/vep_filter.py:51-66 | one annotation changes at most its allele's flag |
| Vep.ApplyAll | vape/vep_filter.py:50-66 | the annotations keep the flag list's length |
| Vep.AllFiltered | vape/vep_filter.py:49 | the starting list: one True per alternate allele |
| Vep.ApplyConsequence | vape/vep_filter.py:59-66 | the loop over the consequence terms of a qualifying annotation computes `ApplyCsq` |
| Vep.ApplyConsequenceTerm | vape/vep_filter.py:60-66 | the body of the term loop computes `ApplyTerm` |
| Vep.VisitAnnotation | vape/vep_filter.py:51-66 | the body of the annotation loop computes `ApplyCsq` |
| Vep.Filter | vape/vep_filter.py:48-67 | `filter(record)` computes `FilterRecord` |
| Vep.FilterLength | vape/vep_filter.py:49 | the result has one flag per alternate allele |
| Vep.ApplyAllUntouched | vape/vep_filter.py:50-66 | an allele no annotation targets keeps its flag |
| Vep.UntouchedAlleleFiltered | vape/vep_filter.py:49-67 | an allele no annotation targets stays filtered |
| Vep.SkippedAnnotationChangesNothing | vape/vep_filter.py:51-58 | a non-canonical annotation in canonical mode, or one of an unselected biotype, changes nothing |
| Vep.MissingCanonicalNotSkipped | vape/vep_filter.py:51-57 | an annotation lacking `CANONICAL` is not skipped for it; only its biotype decides |
| Vep.ApplyTermsWithoutInSilico | vape/vep_filter.py:60-66 | without in silico filtering, an annotation clears its allele exactly when one of its terms is configured |
| Vep.ApplyCsqWithoutInSilico | vape/vep_filter.py:51-66 | without in silico filtering, one annotation clears an allele's flag exactly when it qualifies and targets that allele |
| Vep.ApplyAllWithoutInSilico | vape/vep_filter.py:50-66 | without in silico filtering, an allele ends cleared exactly when it started cleared or some qualifying annotation targets it |
| Vep.LastClassIndex | vape/vep_filter.py:60-61 | the position of the last consequence term that is a configured class; none exactly when no term is one |
| Vep.ApplyTermsLastClass | vape/vep_filter.py:60-66 | within one annotation, the allele's flag is the verdict of its last term that is a configured class |
| Vep.LastAnnotationWins | vape/vep_filter.py:50-66 | whatever earlier annotations did, the last annotation's allele ends with the verdict of that annotation's last configured term, for any number of `&`-separated terms |
| Vep.ApplyCsqSingleTerm | vape/vep_filter.py:59-61 | an annotation with one term acts as that term |
| Vep.ApplyAllPair | vape/vep_filter.py:50 | two annotations apply in order |
| Vep.ApplyTermWrites | vape/vep_filter.py:61-66 | a configured term sets exactly the target allele's flag to the term's verdict |
| Vep.UnconfiguredTermChangesNothing | vape/vep_filter.py:61 | a term that is not a configured class changes nothing |
| Vep.KeptMissenseClears | vape/vep_filter.py:62-64 | a missense term that the in silico filter keeps (or with no in silico filter) clears its allele |
| Vep.OtherFirst | vape/vep_filter.py:50-66 | an unconfigured term then a kept missense term for one allele clear exactly that allele |
| Vep.MissenseFirst | vape/vep_filter.py:50-66 | a kept missense term then an unconfigured term for one allele clear exactly that allele |
| Vep.FilterRecordOf | vape/vep_filter.py:49-50 | `filter` applies the record's annotations to the all-True list |
| Vep.OtherThenMissense | vape/vep_filter.py:48-67 | synonymous-then-missense leaves the allele unfiltered |
| Vep.MissenseThenOther | vape/vep_filter.py:48-67 | missense-then-synonymous leaves the allele unfiltered |
| DbSnp.Present | vape/filter.py:150-152 | the names of a fixed list that the header declares are exactly those in both |
| DbSnp.DeclaredInFails | vape/filter.py:150-158 | reading the declared fields fails exactly when a listed name is declared with no header entry (the `[-1]`) |
| DbSnp.DeclaredInMeta | vape/filter.py:150-158 | the declared fields are exactly the listed names in the header, each with its last header entry |
| DbSnp.DeclaredInOrder | vape/filter.py:150-152 | for a list without repeats, the declared fields come in list order |
| DbSnp.DeclaredFields | vape/filter.py:150-158 | each loop of `get_dbsnp_annot_fields` computes `DeclaredIn` |
| DbSnp.NewDbSnpFilter | vape/filter.py:19-32 | the constructor reads the declared fields and then checks the thresholds |
| DbSnp.ConfigureRejectsInvertedThresholds | vape/filter.py:29-32 | with both thresholds given, construction fails exactly when `freq > min_freq` |
| DbSnp.ConfiguredFreqFields | vape/filter.py:146-152 | the frequency fields consulted are the declared ones of CAF, G5A, G5, COMMON, in that order |
| DbSnp.IndexIn | vape/filter.py:72-73 | the first position of the allele in a dbSNP record's alleles, or none when absent |
| DbSnp.FirstMatch | vape/filter.py:71-73 | a match names a record and a position in it that hold the allele |
| DbSnp.FirstMatchExactly | vape/filter.py:71-73 | the match is the earliest record holding the allele, at its first position there; there is none exactly when no record holds it |
| DbSnp.FirstMatchAt | vape/filter.py:71-76 | the position where the nested loops stop is the first match |
| DbSnp.EvalField | vape/filter.py:78-115 | one field raises only when it is CAF and is not a string (`AttributeError`) or has fewer than `i + 2` elements (`IndexError`); otherwise `do_filter` becomes false when the field clears and else stays set or is set when the field sets; it adds at most its own name to `annot` |
| DbSnp.Sets | vape/filter.py:79-111 | when a field asks for filtering: CAF element `>= freq` or `< min_freq`; COMMON on a single-allele record `'1'` with `freq <= 0.01` or `'0'` with `min_freq <= 0.01`; G5A, or G5 on a single-allele record, set with `freq <= 0.05` |
| DbSnp.Clears | vape/filter.py:107-115 | when a field withdraws filtering: G5A, or G5 on a single-allele record, set with `min_freq <= 0.05` |
| DbSnp.EvalFields | vape/filter.py:77-115 | the field loop fails exactly when CAF is declared, present and cannot be indexed at the allele, with that error; `annot` only holds fields that are both declared and present in the matched record |
| DbSnp.EvalFieldsFilter | vape/filter.py:77-115 | `do_filter` ends true exactly when some present field sets it without clearing it and no later present field clears it |
| DbSnp.UnparseableCafIgnored | vape/filter.py:82-93 | a CAF element that is not an integer raises nothing and leaves `do_filter` as it would be without CAF |
| DbSnp.Compare | vape/filter.py:65-135 | `do_keep` is never set; the comparison fails exactly when the matched record has a declared CAF it cannot index (that error) or, failing that, carries CLNALLE (`NameError`) |
| DbSnp.CompareFilter | vape/filter.py:65-115 | an allele is filtered exactly when the first record holding it has a present field that sets the filter with no later one clearing it; with no such record it is not |
| DbSnp.EvaluateFields | vape/filter.py:77-115 | the field loop computes `EvalFields` |
| DbSnp.VisitField | vape/filter.py:78-115 | the body of the field loop computes `EvalField` |
| DbSnp.CompareSnpValues | vape/filter.py:65-135 | `_compare_snp_values` computes `Compare` |
| DbSnp.CompareWithoutMatch | vape/filter.py:66-70 | an allele no dbSNP record holds gives `(False, False, {})` |
| DbSnp.CompareIgnoresLaterHits | vape/filter.py:132-133 | records after the first one holding the allele change nothing |
| DbSnp.CompareFailsOnClinvarAllele | vape/filter.py:117-121 | a matched record carrying CLNALLE raises NameError for `clinvars` |
| DbSnp.EvalFieldsMultiAllelic | vape/filter.py:94-95 | for a dbSNP record with several alleles, COMMON and G5 play no part |
| DbSnp.CafFractionIsSkipped | vape/filter.py:80-93 | with freq 0.01 and min_freq 0.05, a CAF frequency of 0.1 that `int()` cannot parse leaves the allele unfiltered |
| DbSnp.G5aClearsCafFilter | vape/filter.py:107-115 | a G5A flag with `min_freq <= 0.05` clears a filter that CAF set |
| DbSnp.Comparisons | vape/filter.py:46-51 | one comparison per allele |
| DbSnp.Filters | vape/filter.py:49 | `filter_alleles` holds each allele's filter flag in allele order |
| DbSnp.Keeps | vape/filter.py:50 | `keep_alleles` holds each allele's keep flag in allele order |
| DbSnp.AnnotKeys | vape/filter.py:52 | `all_annots` is the union of the alleles' annotation keys |
| DbSnp.Column | vape/filter.py:55-60 | a field's column has one entry per allele, `.` where the allele lacks the field |
| DbSnp.InfoColumns | vape/filter.py:53-61 | INFO is added only when some allele was annotated, with a padded column for exactly the fields seen |
| DbSnp.Annotate | vape/filter.py:37-63 | both returned lists have one entry per decomposed allele |
| DbSnp.ComparisonsAppend | vape/filter.py:48-52 | one more comparison appends its filter and keep flags and adds its keys to `all_annots` |
| DbSnp.CompareAlleles | vape/filter.py:46-52 | the first loop computes the comparisons, both flag lists and `all_annots` |
| DbSnp.BuildColumn | vape/filter.py:56-60 | the inner loop builds a field's padded column |
| DbSnp.AnnotateAndFilterRecord | vape/filter.py:37-63 | `annotate_and_filter_record` computes `Annotate` |
| DbSnp.ComparisonsPointwise | vape/filter.py:46-51 | the per-allele comparisons are each allele's `_compare_snp_values`; the list fails exactly when one does |
| DbSnp.AnnotateFlags | vape/filter.py:46-50 | each allele's filter flag is its comparison's, and no allele is kept |
| DbSnp.AnnotateColumns | vape/filter.py:53-62 | the added INFO columns are the padded columns of the alleles' annotations |

## Left out

- Reading the data tables (`data/vep_insilico_pred.tsv`, `data/vep_classes.tsv`, `data/biotypes.tsv`) is not modelled. Their lines are inputs.
- Opening the dbSNP VCF, its header parsing and the region query are not modelled. The header's INFO declarations and the list of overlapping dbSNP records are inputs.
- `float()` and `int()` are function parameters returning an `Option`. The model does not fix their exact grammar, nor the treatment of `nan` and `inf`.
- Text.Lower: lowers ASCII letters only. Python's Unicode case mapping is not modelled.
- Text.StripScores: `\d` is read as the ASCII digits 0-9 only. Python 3 also matches the other Unicode decimal digits, so a score such as `(٣)` is stripped by Python but kept by the model.
- Python set iteration order is an input. `set(in_silico)` in `VepFilter.__init__` passes its tokens in an order Python does not fix; `Vep.NewVepFilter` takes that order as `enumeration`.
- Decomposed alleles are opaque values compared by equality. Allele decomposition and VCF parsing are not modelled.
- A VEP annotation's `alt_index` field is its own `Csq.altIndex` component. An in silico program named `alt_index` would read the integer in Python; the model does not represent that case.
- DbSnp.NewDbSnpFilter: the `build > min_build` check (vape/filter.py:33-35) is left out. As written, it raises TypeError in Python 3 whenever both frequencies are set and a build is None. The model accepts those constructions instead.
- DbSnp.Compare: the ClinVar rescue branch (vape/filter.py:117-131) is modelled only up to its first step, the NameError for the undefined `clinvars`. `do_keep` therefore stays False.
- `record.addInfoFields` is not called. `DbSnp.AnnotateAndFilterRecord` returns the INFO columns instead of adding them to the record.
- G5/G5A annotations hold the integer 1 in Python. The model writes the value `One`.
- A dbSNP flag field holds True in the parsed INFO. The model writes `Flag`, which is truthy and fails `split` with AttributeError.
- `bin/vape.py` (command-line parsing) and `vase/info_filter.py` are not part of this model.
