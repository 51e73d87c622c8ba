/**
 * The run configuration (`AppConfig`): the four mutually exclusive mode flags,
 * the include / ignore field lists, their validation at construction, and the
 * derived mode queries and strategy choice. Paths are not modelled.
 */
module Configuration {
  import opened Wrappers
  import opened Strategies

  /**
   * `includeFields` and `ignoreFields` stand for the optional lists of the
   * command line; an absent list and an empty one behave identically, since
   * the source only ever tests their truthiness, so both are the empty
   * sequence here.
   */
  datatype AppConfig = AppConfig(
    includeFields: seq<string>,
    ignoreFields: seq<string>,
    prefix: bool,
    suffix: bool,
    both: bool,
    genField: Option<string>)

  /** The fatal configuration errors (each ends the run with exit code 1). */
  datatype ConfigError =
    | ExclusiveModes                        // more than one of --prefix, --suffix, --both, --gen
    | IncludeAndIgnore                      // --include and --ignore together
    | GenFieldMissing(field: string)        // the --gen field is not a key of json_data
    | NoIncludedField(requested: seq<string>) // no --include field is a key of json_data

  /** Python truthiness of the optional `gen_field`: present and non-empty. */
  function HasGenField(c: AppConfig): (b: bool)
    ensures b <==> c.genField.Some? && |c.genField.value| > 0
  {
    c.genField.Some? && c.genField.value != ""
  }

  /** Reference definition of exclusivity: no two mode flags are active together. */
  predicate PairwiseExclusive(c: AppConfig) {
    && !(c.prefix && c.suffix) && !(c.prefix && c.both) && !(c.suffix && c.both)
    && !(HasGenField(c) && (c.prefix || c.suffix || c.both))
  }

  /** Number of active mode flags, as the source sums them. */
  function ActiveModes(c: AppConfig): (n: nat)
    ensures n <= 4
    ensures n <= 1 <==> PairwiseExclusive(c)
    ensures n == 0 <==> !c.prefix && !c.suffix && !c.both && !HasGenField(c)
  {
    (if c.prefix then 1 else 0) + (if c.suffix then 1 else 0) +
    (if c.both then 1 else 0) + (if HasGenField(c) then 1 else 0)
  }

  /** `_validate`: exclusivity is checked first, then include against ignore. */
  function Validate(c: AppConfig): (r: Outcome<ConfigError>)
    ensures r.Pass? <==> PairwiseExclusive(c) && (c.includeFields == [] || c.ignoreFields == [])
    ensures r == Fail(ExclusiveModes) <==> !PairwiseExclusive(c)
    ensures r == Fail(IncludeAndIgnore) <==>
      PairwiseExclusive(c) && c.includeFields != [] && c.ignoreFields != []
    ensures r.Fail? ==> r.error == ExclusiveModes || r.error == IncludeAndIgnore
  {
    if ActiveModes(c) > 1 then Fail(ExclusiveModes)
    else if |c.includeFields| > 0 && |c.ignoreFields| > 0 then Fail(IncludeAndIgnore)
    else Pass
  }

  /** `is_generation_mode`: per-field expansion rather than uniform replacement. */
  function IsGenerationMode(c: AppConfig): (b: bool)
    ensures b <==> ActiveModes(c) > 0
  {
    c.prefix || c.suffix || c.both || HasGenField(c)
  }

  /** `is_generator_mode`: the sequential generator on one field. */
  function IsGeneratorMode(c: AppConfig): (b: bool)
    ensures b ==> IsGenerationMode(c) && c.genField.Some?
    ensures b <==> HasGenField(c)
  {
    HasGenField(c)
  }

  /** `get_strategy`: priority gen > prefix > suffix > both > replace. */
  function GetStrategy(c: AppConfig, baseValue: string): (r: Strategy)
    ensures r.Generator? <==> IsGeneratorMode(c)
    ensures r.Generator? ==> r.base == baseValue
    ensures r.Replace? <==> !IsGenerationMode(c)
    ensures r.Prefix? ==> c.prefix
    ensures r.Suffix? ==> c.suffix && !c.prefix
    ensures r.Both? ==> c.both && !c.prefix && !c.suffix
  {
    if HasGenField(c) then Generator(baseValue)
    else if c.prefix then Prefix
    else if c.suffix then Suffix
    else if c.both then Both
    else Replace
  }

  /** For a validated configuration the chosen strategy is exactly the one active flag. */
  lemma StrategyMatchesFlag(c: AppConfig, baseValue: string)
    requires Validate(c).Pass?
    ensures GetStrategy(c, baseValue).Prefix? <==> c.prefix
    ensures GetStrategy(c, baseValue).Suffix? <==> c.suffix
    ensures GetStrategy(c, baseValue).Both? <==> c.both
    ensures GetStrategy(c, baseValue).Generator? <==> HasGenField(c)
  {
  }

  /** The label opening of generator mode, before the quoted field name. */
  const GeneratorLabel: string := "generador secuencial para campo '"

  /**
   * `get_mode_description`: the label printed when processing starts. Each
   * strategy has its own label, and the generator label quotes the field.
   */
  function ModeDescription(c: AppConfig): (d: string)
    ensures IsGeneratorMode(c) <==> GeneratorLabel <= d
    ensures IsGeneratorMode(c) ==>
      |d| == |GeneratorLabel| + |c.genField.value| + 1 &&
      d[|GeneratorLabel|..|d| - 1] == c.genField.value && d[|d| - 1] == '\''
    ensures d == "prefijo" <==> GetStrategy(c, "").Prefix?
    ensures d == "sufijo" <==> GetStrategy(c, "").Suffix?
    ensures d == "prefijo Y sufijo (objetos separados)" <==> GetStrategy(c, "").Both?
    ensures d == "Reemplazo" <==> GetStrategy(c, "").Replace?
  {
    if HasGenField(c) then GeneratorLabel + c.genField.value + "'"
    else if c.prefix then "prefijo"
    else if c.suffix then "sufijo"
    else if c.both then
      var d := "prefijo Y sufijo (objetos separados)";
      assert d[0] != GeneratorLabel[0];
      d
    else "Reemplazo"
  }

  /**
   * The label identifies the mode: two configurations print the same label
   * exactly when they choose the same strategy and, in generator mode, name
   * the same field.
   */
  lemma ModeDescriptionIdentifiesMode(c1: AppConfig, c2: AppConfig)
    ensures ModeDescription(c1) == ModeDescription(c2) <==>
      && GetStrategy(c1, "") == GetStrategy(c2, "")
      && (IsGeneratorMode(c1) ==> c1.genField == c2.genField)
  {
    var d1, d2 := ModeDescription(c1), ModeDescription(c2);
    if IsGeneratorMode(c1) && IsGeneratorMode(c2) && d1 == d2 {
      assert c1.genField.value == d1[|GeneratorLabel|..|d1| - 1];
    }
  }
}
