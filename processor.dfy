/**
 * `JsonProcessor`: the object that loads the inputs into its fields, selects
 * the target fields and the strategy, and runs the expansion. Reading the
 * template and word-list files and writing the output file are not
 * modelled: the template arrives parsed, the word list as its raw lines,
 * and what would be written is returned.
 */
module Processor {
  import opened Wrappers
  import opened Collections
  import opened Strategies
  import opened Configuration
  import opened Templates
  import opened Words
  import opened Ordinals
  import opened FieldSelection
  import opened Expansion

  /** What a successful run writes, and the count it returns. */
  datatype Output = Output(written: seq<Template>, count: nat)

  /**
   * The word sequence of a run: the ordinals "1".."N" in generator mode,
   * N = max(|json_data|, 10), otherwise the filtered word-list lines.
   */
  function RunWords(c: AppConfig, template: Template, wordlistLines: seq<string>): (r: seq<string>)
    ensures NoDuplicates(r) && "" !in r
    ensures IsGeneratorMode(c) ==>
      && |r| == GeneratorCount(|template.jsonData|)
      && forall i :: 0 <= i < |r| ==> r[i] == DecimalString(i + 1)
    ensures !IsGeneratorMode(c) ==> forall w :: w in r <==> w != "" && w in StripAll(wordlistLines)
    ensures !IsGeneratorMode(c) ==> InFirstOccurrenceOrder(r, StripAll(wordlistLines))
  {
    if IsGeneratorMode(c) then
      OrdinalWordsAreDistinct(GeneratorCount(|template.jsonData|));
      OrdinalWords(GeneratorCount(|template.jsonData|))
    else
      DeduplicatedKeepsFirstOccurrenceOrder(StripAll(wordlistLines));
      Deduplicated(StripAll(wordlistLines))
  }

  /**
   * In generator mode the words of a run do not depend on the word list:
   * the same template gives the same words whatever lines are supplied.
   */
  lemma RunWordsWellFormed(c: AppConfig, template: Template, wordlistLines: seq<string>, otherLines: seq<string>)
    requires IsGeneratorMode(c)
    ensures RunWords(c, template, wordlistLines) == RunWords(c, template, otherLines)
    ensures RunWords(c, template, wordlistLines) == OrdinalWords(GeneratorCount(|template.jsonData|))
  {
  }

  /**
   * The strategy `_determine_target_fields` picks for a template: the
   * generator starts from the generated field's value, every other strategy
   * from the empty base.
   */
  function StrategyFor(c: AppConfig, template: Template): (r: Strategy)
    ensures r.Generator? <==> IsGeneratorMode(c)
    ensures r.Generator? && c.genField.value in template.jsonData ==> r.base == template.jsonData[c.genField.value]
    ensures r.Replace? <==> !IsGenerationMode(c)
    ensures Validate(c).Pass? ==> (r.Prefix? <==> c.prefix) && (r.Suffix? <==> c.suffix) && (r.Both? <==> c.both)
  {
    var baseValue := if IsGeneratorMode(c) && c.genField.value in template.jsonData
      then template.jsonData[c.genField.value] else "";
    GetStrategy(c, baseValue)
  }

  /**
   * In generator mode the i-th object written is the template with the
   * generated field set to its original value followed by the ordinal i + 1,
   * and nothing else changed.
   */
  lemma GeneratorModeOutput(template: Template, field: string, n: nat, i: nat)
    requires field in template.jsonData && i < n
    ensures var out := ByField(template, OrdinalWords(n), [field], Generator(template.jsonData[field]));
      && |out| == n
      && out[i] == template.WithField(field, template.jsonData[field] + DecimalString(i + 1))
  {
    var s := Generator(template.jsonData[field]);
    var words := OrdinalWords(n);
    ByFieldLength(template, words, [field], s);
    assert n * (|[field]| * s.Fanout()) == n;
    ByFieldAt(template, words, [field], s, i, 0, 0);
    assert (i * |[field]| + 0) * s.Fanout() + 0 == i;
    assert s.Apply(template.jsonData[field], words[i])[0] == template.jsonData[field] + DecimalString(i + 1);
  }

  /**
   * Generation mode writes |words| * |targets| objects, twice as many under
   * --both (a validated configuration).
   */
  lemma GenerationRunCount(c: AppConfig, template: Template, words: seq<string>, fields: seq<string>)
    requires Validate(c).Pass? && IsGenerationMode(c)
    requires AreKeys(template.jsonData, fields)
    ensures |ByField(template, words, fields, StrategyFor(c, template))| ==
      |words| * (|fields| * if c.both then 2 else 1)
  {
    var s := StrategyFor(c, template);
    StrategyMatchesFlag(c, if IsGeneratorMode(c) && c.genField.value in template.jsonData
                           then template.jsonData[c.genField.value] else "");
    ByFieldLength(template, words, fields, s);
  }

  /**
   * Outside generation mode the strategy is Replace, so the i-th object
   * written carries the i-th word verbatim in every target field and the
   * template's content everywhere else.
   */
  lemma UniformRunOutput(c: AppConfig, template: Template, words: seq<string>, fields: seq<string>, i: nat)
    requires !IsGenerationMode(c)
    requires AreKeys(template.jsonData, fields) && i < |words|
    ensures var t := Uniform(template, words, fields, StrategyFor(c, template))[i];
      && t.otherFields == template.otherFields
      && t.jsonData.Keys == template.jsonData.Keys
      && (forall f :: f in fields ==> t.jsonData[f] == words[i])
      && (forall g :: g in template.jsonData && g !in fields ==> t.jsonData[g] == template.jsonData[g])
  {
    assert StrategyFor(c, template) == Replace;
    UniformAt(template, words, fields, i);
  }

  class JsonProcessor {
    const config: AppConfig
    var baseObj: Template
    var words: seq<string>
    var targetFields: set<string>
    var strategy: Option<Strategy>

    /** Takes a configuration that passed validation, as `AppConfig` objects always have. */
    constructor (config: AppConfig)
      requires Validate(config).Pass?
      ensures this.config == config
      ensures baseObj == EmptyTemplate && words == [] && targetFields == {} && strategy == None
    {
      this.config := config;
      baseObj := EmptyTemplate;
      words := [];
      targetFields := {};
      strategy := None;
    }

    /** `_load_inputs`: the template, then the words (the word list only outside generator mode). */
    method LoadInputs(template: Template, wordlistLines: seq<string>)
      modifies this`baseObj, this`words
      ensures baseObj == template
      ensures words == RunWords(config, template, wordlistLines)
    {
      baseObj := template;
      if !IsGeneratorMode(config) {
        words := LoadWordlist(wordlistLines);
      } else {
        var numObjects := GeneratorCount(|baseObj.jsonData|);
        words := OrdinalWords(numObjects);
      }
    }

    /** `_determine_target_fields`: the target set and the strategy, or the fatal error. */
    method DetermineTargetFields() returns (outcome: Outcome<ConfigError>)
      modifies this`targetFields, this`strategy
      ensures var selected := SelectTargets(config, baseObj.jsonData.Keys);
        && (outcome.Pass? <==> selected.Success?)
        && (selected.Success? ==> targetFields == selected.value && strategy == Some(StrategyFor(config, baseObj)))
        && (selected.Failure? ==> outcome == Fail(selected.error) && strategy == old(strategy))
        && (selected.Failure? ==> targetFields == if IsGeneratorMode(config) then old(targetFields) else {})
    {
      var available := baseObj.jsonData.Keys;
      if IsGeneratorMode(config) {
        var field := config.genField.value;
        if field !in available {
          return Fail(GenFieldMissing(field));
        }
        targetFields := {field};
        var baseValue := baseObj.jsonData[field];
        strategy := Some(GetStrategy(config, baseValue));
      } else {
        if |config.includeFields| > 0 {
          targetFields := available * Elements(config.includeFields);
          if targetFields == {} {
            return Fail(NoIncludedField(config.includeFields));
          }
        } else if |config.ignoreFields| > 0 {
          targetFields := available - Elements(config.ignoreFields);
        } else {
          targetFields := available;
        }
        strategy := Some(GetStrategy(config, ""));
      }
      return Pass;
    }

    /**
     * `process`: load, select, then expand. An empty word sequence or an
     * empty target set writes an empty list and returns 0; otherwise the
     * written list is the expansion of the template, with the target set
     * iterated in the order `fieldOrder`.
     */
    method Process(template: Template, wordlistLines: seq<string>)
      returns (outcome: Result<Output, ConfigError>, ghost fieldOrder: seq<string>)
      modifies this`baseObj, this`words, this`targetFields, this`strategy
      ensures baseObj == template && words == RunWords(config, template, wordlistLines)
      ensures var selected := SelectTargets(config, template.jsonData.Keys);
        && (outcome.Failure? <==> selected.Failure?)
        && (outcome.Failure? ==> outcome.error == selected.error)
        && (outcome.Success? ==> targetFields == selected.value && strategy == Some(StrategyFor(config, template)))
      ensures outcome.Success? ==> outcome.value.count == |outcome.value.written|
      ensures outcome.Success? && words != [] && targetFields != {} ==>
        && NoDuplicates(fieldOrder) && Elements(fieldOrder) == targetFields && AreKeys(template.jsonData, fieldOrder)
      ensures outcome.Success? && IsGeneratorMode(config) && words != [] ==>
        fieldOrder == [config.genField.value]
      ensures outcome.Success? && (words == [] || targetFields == {}) ==> outcome.value.written == []
      ensures outcome.Success? && words != [] && targetFields != {} ==>
        outcome.value.written ==
          if IsGenerationMode(config) then ByField(template, words, fieldOrder, StrategyFor(config, template))
          else Uniform(template, words, fieldOrder, StrategyFor(config, template))
    {
      LoadInputs(template, wordlistLines);
      var selected := DetermineTargetFields();
      fieldOrder := [];
      if selected.Fail? {
        return Failure(selected.error), fieldOrder;
      }
      if words == [] {
        return Success(Output([], 0)), fieldOrder;
      }
      if targetFields == {} {
        return Success(Output([], 0)), fieldOrder;
      }
      var order := IterationOrder(targetFields);
      if IsGeneratorMode(config) {
        SingletonOrder(order, config.genField.value);
      }
      fieldOrder := order;
      var results: seq<Template>;
      if IsGenerationMode(config) {
        results := ExpandByField(baseObj, words, order, strategy.value);
      } else {
        results := ReplaceUniformly(baseObj, words, order, strategy.value);
      }
      return Success(Output(results, |results|)), fieldOrder;
    }
  }
}
