# cambalache in Dafny

A verified model of the core of **cambalache**, a batch generator that takes
one JSON template object and a word list and writes many variants of the
template. Each variant rewrites fields of the template's `json_data`
mapping with a word. The work is done by one of five transformation
strategies:

- replace the value with the word;
- prefix the word;
- suffix the word;
- both, which gives two objects, prefix form then suffix form;
- the sequential generator, which appends the ordinals "1".."N" to the
  original value of one field.

The model covers all of these:

- the strategies (`strategies.dfy`);
- the configuration: exclusivity checks, mode queries, strategy priority
  and mode label (`configuration.dfy`);
- the word-list filter: strip, drop blanks, keep first occurrences
  (`words.dfy`);
- the generator's ordinal words (`ordinals.dfy`);
- target-field selection by include / ignore / generator field
  (`field_selection.dfy`);
- the two expansion loops (`expansion.dfy`);
- the `JsonProcessor` object that runs them in order (`processor.dfy`).

`scenarios.dfy` restates two of the repository's processor tests as
lemmas proved about the model. The source's both-mode test compares its
results as a set, whatever their order. `Scenarios.BothModeRun` fixes the
field order to field_a then field_b and proves the exact list in that
order.

The template is a value: `json_data` is a `map<string, string>` and the
other top-level keys are carried verbatim. The source deep-copies the
template for each output object. Here every copy is a fresh value, so no
output object shares state with the template or with another output.
Python iterates the target fields as a `set`, in an unspecified order. The
model enumerates the set once per run in an order it leaves open
(`IterationOrder`, a nondeterministic choice), and the results are stated
for whichever order was picked.

## Model

| member | source | states |
|---|---|---|
| `Strategies.Strategy.Apply` | cambalache.py:32-70 | Both gives two values and every other strategy one. Replace gives the word. Prefix gives word then original, and Suffix original then word. Both gives the prefix form and then the suffix form. Generator gives base then word. Every output holds the word at one end. |
| `Strategies.BothIsPrefixThenSuffix` | cambalache.py:53-60 | Both's output is Prefix's output followed by Suffix's output. |
| `Strategies.IgnoresOriginal` | cambalache.py:63-70 | Replace and Generator(base) give the same output whatever the original value is. |
| `Strategies.OriginalRecoverable` | cambalache.py:39-60 | Every Prefix, Suffix and Both output splits back into the word and the original value, with the word on the side the strategy puts it. |
| `Configuration.Validate` | cambalache.py:99-120 | Validation passes iff no two of prefix/suffix/both/gen are set and include and ignore are not both non-empty. Exclusivity is checked first, so a config that breaks both rules reports ExclusiveModes. A gen field that is an empty string counts as unset. |
| `Configuration.HasGenField` | cambalache.py:102 | Python truthiness of the optional gen field: true iff a name is present and non-empty. An absent name and an empty string both count as unset. |
| `Configuration.ActiveModes` | cambalache.py:102 | The count of active flags is at most 4. It is at most 1 iff no two flags are active together, and 0 iff none is. |
| `Configuration.IsGenerationMode` | cambalache.py:122-125 | Generation mode holds iff the count of active flags is positive. |
| `Configuration.IsGeneratorMode` | cambalache.py:127-130 | Generator mode holds iff the gen field is truthy, and it implies generation mode. |
| `Configuration.GetStrategy` | cambalache.py:132-143 | Generator is chosen iff generator mode, and carries the given base value. Replace is chosen iff not generation mode. Prefix, Suffix and Both each need their own flag and no flag of higher priority. |
| `Configuration.StrategyMatchesFlag` | cambalache.py:132-143 | For a validated config, the strategy is Prefix, Suffix, Both or Generator exactly when its own flag is set. |
| `Configuration.ModeDescription` | cambalache.py:145-155 | Each strategy has its own label: "prefijo", "sufijo", "prefijo Y sufijo (objetos separados)" and "Reemplazo", each iff that strategy is chosen. The label starts with the generator opening iff in generator mode, and then the gen field's name sits between the opening and a closing quote. |
| `Configuration.ModeDescriptionIdentifiesMode` | cambalache.py:145-155 | Two configurations print the same label iff they choose the same strategy and, in generator mode, name the same field. |
| `Words.Strip` | cambalache.py:196 | A stripped line is no longer than the line and neither starts nor ends with whitespace. |
| `Words.StripIsTrimmedSlice` | cambalache.py:196 | A stripped line is a contiguous slice of the line. Everything cut from either end is Python whitespace, and the slice neither starts nor ends with whitespace. |
| `Words.StripIdempotent` | cambalache.py:196 | Stripping a stripped line changes nothing. |
| `Words.StripAll` | cambalache.py:196 | Line i of the result is the strip of raw line i, so there are as many stripped lines as raw lines, in the same order. |
| `Words.StripAllStripped` | cambalache.py:196 | Every stripped line is already stripped. |
| `Words.StrippedLine` | cambalache.py:196 | A string is among the stripped lines iff it is the strip of some raw line. |
| `Words.Deduplicated` | cambalache.py:198-204 | The kept words are exactly the non-empty lines, with no word twice. |
| `Words.DeduplicatedKeepsFirstOccurrenceOrder` | cambalache.py:198-204 | The kept words are listed in the order of their first occurrence among the lines. |
| `Words.KeepFirstNonBlank` | cambalache.py:198-204 | The loop with its seen set returns exactly `Deduplicated` of the lines, so the non-blank lines, none twice, in first-occurrence order. |
| `Words.LoadWordlist` | cambalache.py:192-210 | Stripping and then the blank/seen loop return the de-duplicated stripped lines. Its words are exactly the non-blank stripped lines, none twice, each already stripped. |
| `Ordinals.DecimalString` | cambalache.py:251 | `str(n)` is a non-empty string of decimal digits with no leading zero when n > 0. |
| `Ordinals.DecimalRoundTrip` | cambalache.py:251 | Reading back the decimal notation of n yields n. |
| `Ordinals.OrdinalWords` | cambalache.py:251 | There are count words, and the i-th is the decimal notation of i + 1. |
| `Ordinals.OrdinalWordsAreDistinct` | cambalache.py:249-251 | The generator words "1".."N" are distinct and non-blank, and the i-th reads back as i + 1. |
| `Ordinals.GeneratorCount` | cambalache.py:250 | The generator word count is at least 10 and at least the number of json_data fields, and is one of the two. |
| `FieldSelection.SelectTargets` | cambalache.py:253-297 | The targets are always keys of json_data. Selection fails iff in generator mode the gen field is not a key, or outside it include is given and none of its fields is a key, each with its own error. In generator mode the target set is the gen field alone. |
| `FieldSelection.SelectedFieldsOutsideGeneratorMode` | cambalache.py:268-297 | Outside generator mode, a field is a target iff it is a key and (with include) listed there and (with ignore only) not listed there. |
| `FieldSelection.IgnoreNeverFails` | cambalache.py:285-297 | Without include, selection never fails, even when ignore removes every field. With neither list the targets are all keys. |
| `FieldSelection.IterationOrder` | cambalache.py:331 | Enumerating the target set lists each element exactly once. |
| `Templates.Template.WithField` | cambalache.py:335-337 | A copy with one field overwritten has the same keys, the new value in that field, and every other field and top-level key unchanged. |
| `Templates.OverwriteAll` | cambalache.py:350-357 | Overwriting the target fields one by one keeps the key set, puts the value in every target and leaves every other field unchanged. |
| `Expansion.ForWordLength` | cambalache.py:331-343 | One word yields \|targets\| × (2 for Both, else 1) objects. |
| `Expansion.ByFieldLength` | cambalache.py:329-343 | Generation mode writes \|words\| × \|targets\| × (2 for Both, else 1) objects. |
| `Expansion.ForWordAt` | cambalache.py:331-343 | Within one word's block, position fi·k + j holds the template with target fi set to strategy output j. |
| `Expansion.ByFieldBlockAt` | cambalache.py:330-343 | The results are grouped by word in word order: word wi's block starts at wi × \|targets\| × k. |
| `Expansion.ByFieldAt` | cambalache.py:329-343 | Position (wi·\|targets\| + fi)·k + j holds the template with only target fi set to output j of the strategy for word wi. So results go word by word, then field by field, and a Both pair sits side by side, prefix form first. |
| `Expansion.ByFieldChangesOneField` | cambalache.py:329-343 | Every generated object differs from the template in one target field at most. That field holds a strategy output for some word, and the top-level keys are unchanged. |
| `Expansion.ExpandByField` | cambalache.py:329-343 | The outer loop over words builds exactly the generation-mode result list. |
| `Expansion.ExpandWord` | cambalache.py:331-343 | The field and output loops for one word build exactly that word's block. Their "field not found" branch is proved unreachable. |
| `Expansion.UniformAt` | cambalache.py:345-358 | Under Replace, the i-th uniform result has every target field equal to the i-th word. Every other field and top-level key equals the template. |
| `Expansion.ReplaceUniformly` | cambalache.py:345-358 | The uniform-replace loops build exactly the uniform result list, one object per word. Their "field not found" branch is proved unreachable. |
| `Expansion.OverwriteCopy` | cambalache.py:347-357 | The inner loop of uniform-replace mode yields a copy of the template whose json_data is the template's with every target overwritten by the value, so keys, other fields and top-level keys stay as in the template. Its "field not found" branch is proved unreachable. |
| `Processor.RunWords` | cambalache.py:242-251 | A run's words are distinct and non-blank. In generator mode there are max(\|json_data\|, 10) of them and the i-th is str(i + 1). Otherwise they are exactly the non-blank stripped lines of the word list, in the order of their first occurrence there. |
| `Processor.RunWordsWellFormed` | cambalache.py:244-251 | In generator mode the words are the ordinals and the word-list lines are not consulted: any two sets of lines give the same words. |
| `Processor.StrategyFor` | cambalache.py:266-297 | The strategy is Generator iff in generator mode, and it then starts from the gen field's value. It is Replace iff not in generation mode. For a validated config, Prefix, Suffix and Both are each chosen iff their own flag is set. |
| `Processor.GeneratorModeOutput` | cambalache.py:329-343 | With the ordinal words of line 251 expanded over the gen field alone, the i-th object is the template with the gen field set to its original value followed by str(i + 1). Nothing else changes, and N objects are written. |
| `Processor.GenerationRunCount` | cambalache.py:329-343 | For a validated config in generation mode the output count is \|words\| × \|targets\|, doubled exactly when --both is set. |
| `Processor.UniformRunOutput` | cambalache.py:345-358 | Outside generation mode every output object carries its word verbatim in every target field and the template elsewhere. |
| `Processor.JsonProcessor.constructor` | cambalache.py:233-240 | A fresh processor holds the validated config, an empty template, no words, no targets and no strategy. |
| `Processor.JsonProcessor.LoadInputs` | cambalache.py:242-251 | Stores the template. Sets the words to the ordinals in generator mode and to the filtered word list otherwise. |
| `Processor.JsonProcessor.DetermineTargetFields` | cambalache.py:253-303 | Passes iff selection succeeds, and then stores the selected targets and the chosen strategy. On failure it returns the error and leaves the strategy unchanged. |
| `Processor.JsonProcessor.Process` | cambalache.py:305-361 | A selection error aborts with nothing written. An empty word sequence or target set writes [] and returns 0. Otherwise it writes the generation-mode or uniform-replace expansion of the template, in the chosen field order, and returns its length. In generator mode that order is the gen field alone. |
| `Scenarios.ReplaceModeRun` | tests/test_cambalache.py:415-438 | Replace mode on the sample object with w1, w2 gives two objects with both fields set to the word. |
| `Scenarios.BothModeRun` | tests/test_cambalache.py:466-497 | Both mode on the sample object with w1, w2 gives the eight objects in word, field, prefix-then-suffix order. |

## Left out

- File reading and JSON parsing (`load_template`), with its structural checks on the parsed array. The template enters the model already parsed, with `json_data` as a map.
- Floating-point JSON numbers in the template's other keys. Integers stand for all numbers. These keys are only copied, never inspected.
- Reading the word-list file and splitting it into lines. The word list enters as the lines `readlines` returns.
- The output writer (`JsonWriter.write`: indentation, non-ASCII output). A run returns the list it would write.
- I/O errors and the `typer.Exit` exit codes. Fatal configuration errors are returned as `ConfigError` values.
- The CLI `main`, its option wiring, and the catch-all handler that prints a traceback.
- The messages printed with `typer.echo`. They never change the result. This covers the progress line "Modo … activado. Procesando..." (the only use of the mode label, modelled as `Configuration.ModeDescription`), the generator-mode notice, missing include fields, ignore leaving nothing, an empty word list, no targets, and the internal "field not found" notices. The branches that hold the last of these are modelled and proved unreachable.
- Python's `str()` of non-string `json_data` values. Values are taken to be strings already.
- Python's `None` versus `[]` for `--include` / `--ignore`. The source only tests their truthiness, so both are the empty sequence.
- The template, word-list and output paths of `AppConfig`. They only feed the I/O left out above.
- The concrete iteration order of a Python `set`. The model fixes one open order per run and reuses it for every word, as iterating one unmodified set does.
- Expansion.ExpandByField: its contract gives the result list, not its length. The count is the separate lemma `Expansion.ByFieldLength`.
