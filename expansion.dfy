/**
 * The expansion engine: the two loops of `JsonProcessor.process` that turn
 * (template, words, target fields, strategy) into the list of output
 * objects. The target set is passed as the sequence in which it is iterated.
 */
module Expansion {
  import opened Strategies
  import opened Templates
  import opened Collections

  /** Every field of `fields` is a key of `data`. */
  predicate AreKeys(data: map<string, string>, fields: seq<string>) {
    forall f :: f in fields ==> f in data
  }

  // ---------------------------------------------------------------------
  // Generation mode: one copy per (word, field, strategy output).
  // ---------------------------------------------------------------------

  /** One copy of `base` per value, with `field` set to that value. */
  function Variants(base: Template, field: string, values: seq<string>): (r: seq<Template>)
    requires field in base.jsonData
    ensures |r| == |values|
  {
    seq(|values|, k requires 0 <= k < |values| => base.WithField(field, values[k]))
  }

  /** For one word, the copies made for each target field in turn. */
  function FieldBlocks(base: Template, word: string, fields: seq<string>, s: Strategy): seq<seq<Template>>
    requires AreKeys(base.jsonData, fields)
  {
    seq(|fields|, i requires 0 <= i < |fields| && AreKeys(base.jsonData, fields) =>
      Variants(base, fields[i], s.Apply(base.jsonData[fields[i]], word)))
  }

  /** The copies produced for one word, field after field. */
  function ForWord(base: Template, word: string, fields: seq<string>, s: Strategy): seq<Template>
    requires AreKeys(base.jsonData, fields)
  {
    Flatten(FieldBlocks(base, word, fields, s))
  }

  /** For each word in turn, the copies produced for it. */
  function WordBlocks(base: Template, words: seq<string>, fields: seq<string>, s: Strategy): seq<seq<Template>>
    requires AreKeys(base.jsonData, fields)
  {
    seq(|words|, i requires 0 <= i < |words| && AreKeys(base.jsonData, fields) => ForWord(base, words[i], fields, s))
  }

  /** The result list of generation mode, word after word. */
  function ByField(base: Template, words: seq<string>, fields: seq<string>, s: Strategy): seq<Template>
    requires AreKeys(base.jsonData, fields)
  {
    Flatten(WordBlocks(base, words, fields, s))
  }

  lemma FieldBlocksOfLength(base: Template, word: string, fields: seq<string>, s: Strategy)
    requires AreKeys(base.jsonData, fields)
    ensures AllOfLength(FieldBlocks(base, word, fields, s), s.Fanout())
  {
  }

  lemma WordBlocksOfLength(base: Template, words: seq<string>, fields: seq<string>, s: Strategy)
    requires AreKeys(base.jsonData, fields)
    ensures AllOfLength(WordBlocks(base, words, fields, s), |fields| * s.Fanout())
  {
    forall i | 0 <= i < |words| ensures |WordBlocks(base, words, fields, s)[i]| == |fields| * s.Fanout() {
      ForWordLength(base, words[i], fields, s);
    }
  }

  /** One word yields |targets| * (2 for Both, else 1) objects. */
  lemma ForWordLength(base: Template, word: string, fields: seq<string>, s: Strategy)
    requires AreKeys(base.jsonData, fields)
    ensures |ForWord(base, word, fields, s)| == |fields| * s.Fanout()
  {
    FieldBlocksOfLength(base, word, fields, s);
    FlattenLength(FieldBlocks(base, word, fields, s), s.Fanout());
  }

  /** Generation mode writes |words| * |targets| * (2 for Both, else 1) objects. */
  lemma ByFieldLength(base: Template, words: seq<string>, fields: seq<string>, s: Strategy)
    requires AreKeys(base.jsonData, fields)
    ensures |ByField(base, words, fields, s)| == |words| * (|fields| * s.Fanout())
  {
    WordBlocksOfLength(base, words, fields, s);
    FlattenLength(WordBlocks(base, words, fields, s), |fields| * s.Fanout());
  }

  /** Position `fi * k + j` of one word's block holds output `j` for field `fi`. */
  lemma ForWordAt(base: Template, word: string, fields: seq<string>, s: Strategy, fi: nat, j: nat)
    requires AreKeys(base.jsonData, fields)
    requires fi < |fields| && j < s.Fanout()
    ensures fi * s.Fanout() + j < |ForWord(base, word, fields, s)|
    ensures ForWord(base, word, fields, s)[fi * s.Fanout() + j] ==
      base.WithField(fields[fi], s.Apply(base.jsonData[fields[fi]], word)[j])
  {
    FieldBlocksOfLength(base, word, fields, s);
    FlattenAt(FieldBlocks(base, word, fields, s), s.Fanout(), fi, j);
  }

  /** Word `wi`'s block of the result list is that word's `ForWord` list. */
  lemma ByFieldBlockAt(base: Template, words: seq<string>, fields: seq<string>, s: Strategy, wi: nat, r: nat)
    requires AreKeys(base.jsonData, fields)
    requires wi < |words| && r < |ForWord(base, words[wi], fields, s)|
    ensures wi * (|fields| * s.Fanout()) + r < |ByField(base, words, fields, s)|
    ensures ByField(base, words, fields, s)[wi * (|fields| * s.Fanout()) + r] == ForWord(base, words[wi], fields, s)[r]
  {
    ForWordLength(base, words[wi], fields, s);
    WordBlocksOfLength(base, words, fields, s);
    FlattenAt(WordBlocks(base, words, fields, s), |fields| * s.Fanout(), wi, r);
  }

  lemma BlockIndex(wi: nat, fi: nat, j: nat, f: nat, k: nat)
    requires fi < f && j < k
    ensures (wi * f + fi) * k + j == wi * (f * k) + (fi * k + j)
    ensures fi * k + j < f * k
  {
    assert (wi * f + fi) * k == wi * f * k + fi * k;
    assert fi * k + j < fi * k + k == (fi + 1) * k <= f * k;
  }

  /**
   * The result list is ordered word-major, then field, then strategy output:
   * position (wi * |fields| + fi) * k + j holds the template with only field
   * `fields[fi]` replaced by output `j` of the strategy for word `words[wi]`
   * (so a Both pair sits side by side, prefix form first).
   */
  lemma ByFieldAt(base: Template, words: seq<string>, fields: seq<string>, s: Strategy, wi: nat, fi: nat, j: nat)
    requires AreKeys(base.jsonData, fields)
    requires wi < |words| && fi < |fields| && j < s.Fanout()
    ensures (wi * |fields| + fi) * s.Fanout() + j < |ByField(base, words, fields, s)|
    ensures ByField(base, words, fields, s)[(wi * |fields| + fi) * s.Fanout() + j] ==
      base.WithField(fields[fi], s.Apply(base.jsonData[fields[fi]], words[wi])[j])
  {
    BlockIndex(wi, fi, j, |fields|, s.Fanout());
    ForWordAt(base, words[wi], fields, s, fi, j);
    ByFieldBlockAt(base, words, fields, s, wi, fi * s.Fanout() + j);
  }

  /** The template with at most `field` of `json_data` changed, and nothing else. */
  ghost predicate OnlyFieldChanged(base: Template, t: Template, field: string) {
    && t.otherFields == base.otherFields
    && t.jsonData.Keys == base.jsonData.Keys
    && forall g :: g in base.jsonData && g != field ==> t.jsonData[g] == base.jsonData[g]
  }

  /**
   * Every generated object differs from the template in one target field
   * only, and that field holds a strategy output for some word.
   */
  lemma ByFieldChangesOneField(base: Template, words: seq<string>, fields: seq<string>, s: Strategy)
    requires AreKeys(base.jsonData, fields)
    ensures forall t :: t in ByField(base, words, fields, s) ==>
      exists w, f :: w in words && f in fields && OnlyFieldChanged(base, t, f) &&
        t.jsonData[f] in s.Apply(base.jsonData[f], w)
  {
    forall t | t in ByField(base, words, fields, s)
      ensures exists w, f ::
        w in words && f in fields && OnlyFieldChanged(base, t, f) && t.jsonData[f] in s.Apply(base.jsonData[f], w)
    {
      FlattenMember(WordBlocks(base, words, fields, s), t);
      var wi :| 0 <= wi < |words| && t in ForWord(base, words[wi], fields, s);
      ForWordChangesOneField(base, words[wi], fields, s);
      var f :| f in fields && OnlyFieldChanged(base, t, f) && t.jsonData[f] in s.Apply(base.jsonData[f], words[wi]);
      assert words[wi] in words;
    }
  }

  lemma ForWordChangesOneField(base: Template, word: string, fields: seq<string>, s: Strategy)
    requires AreKeys(base.jsonData, fields)
    ensures forall t :: t in ForWord(base, word, fields, s) ==>
      exists f :: f in fields && OnlyFieldChanged(base, t, f) && t.jsonData[f] in s.Apply(base.jsonData[f], word)
  {
    forall t | t in ForWord(base, word, fields, s)
      ensures exists f :: f in fields && OnlyFieldChanged(base, t, f) && t.jsonData[f] in s.Apply(base.jsonData[f], word)
    {
      FlattenMember(FieldBlocks(base, word, fields, s), t);
      var fi :| 0 <= fi < |fields| && t in FieldBlocks(base, word, fields, s)[fi];
      var field := fields[fi];
      var outputs := s.Apply(base.jsonData[field], word);
      var k :| 0 <= k < |outputs| && t == Variants(base, field, outputs)[k];
      assert t == base.WithField(field, outputs[k]);
      assert OnlyFieldChanged(base, t, field);
    }
  }

  lemma ByFieldStep(base: Template, words: seq<string>, fields: seq<string>, s: Strategy, i: nat)
    requires AreKeys(base.jsonData, fields) && i < |words|
    ensures ByField(base, words[..i + 1], fields, s) == ByField(base, words[..i], fields, s) + ForWord(base, words[i], fields, s)
  {
    var blocks := WordBlocks(base, words, fields, s);
    assert WordBlocks(base, words[..i + 1], fields, s) == blocks[..i + 1];
    assert WordBlocks(base, words[..i], fields, s) == blocks[..i];
    FlattenStep(blocks, i);
  }

  lemma ForWordStep(base: Template, word: string, fields: seq<string>, s: Strategy, j: nat)
    requires AreKeys(base.jsonData, fields) && j < |fields|
    ensures ForWord(base, word, fields[..j + 1], s) ==
      ForWord(base, word, fields[..j], s) + Variants(base, fields[j], s.Apply(base.jsonData[fields[j]], word))
  {
    var blocks := FieldBlocks(base, word, fields, s);
    assert FieldBlocks(base, word, fields[..j + 1], s) == blocks[..j + 1];
    assert FieldBlocks(base, word, fields[..j], s) == blocks[..j];
    FlattenStep(blocks, j);
  }

  lemma VariantsStep(base: Template, field: string, values: seq<string>, m: nat)
    requires field in base.jsonData && m < |values|
    ensures Variants(base, field, values[..m + 1]) == Variants(base, field, values[..m]) + [base.WithField(field, values[m])]
  {
  }

  /** The loops of generation mode: words, then target fields, then strategy outputs. */
  method ExpandByField(base: Template, words: seq<string>, fields: seq<string>, s: Strategy)
    returns (results: seq<Template>)
    requires AreKeys(base.jsonData, fields)
    ensures results == ByField(base, words, fields, s)
  {
    results := [];
    for i := 0 to |words|
      invariant results == ByField(base, words[..i], fields, s)
    {
      var copies := ExpandWord(base, words[i], fields, s);
      results := results + copies;
      ByFieldStep(base, words, fields, s, i);
    }
    assert words[..|words|] == words;
  }

  /** The body of the outer loop of generation mode: the copies made for one word. */
  method ExpandWord(base: Template, word: string, fields: seq<string>, s: Strategy)
    returns (copies: seq<Template>)
    requires AreKeys(base.jsonData, fields)
    ensures copies == ForWord(base, word, fields, s)
  {
    copies := [];
    for j := 0 to |fields|
      invariant copies == ForWord(base, word, fields[..j], s)
    {
      var field := fields[j];
      var original := base.jsonData[field];
      var modifications := s.Apply(original, word);
      ghost var before := copies;
      for m := 0 to |modifications|
        invariant copies == before + Variants(base, field, modifications[..m])
      {
        var copy := base;
        if field in copy.jsonData {
          copy := copy.(jsonData := copy.jsonData[field := modifications[m]]);
          VariantsStep(base, field, modifications, m);
          copies := copies + [copy];
        } else {
          assert false;
        }
      }
      assert modifications[..|modifications|] == modifications;
      ForWordStep(base, word, fields, s, j);
    }
    assert fields[..|fields|] == fields;
  }

  // ---------------------------------------------------------------------
  // Uniform-replace mode: one copy per word, every target overwritten.
  // ---------------------------------------------------------------------

  /** The result list of uniform-replace mode. */
  function Uniform(base: Template, words: seq<string>, fields: seq<string>, s: Strategy): (r: seq<Template>)
    requires AreKeys(base.jsonData, fields)
    ensures |r| == |words|
  {
    if words == [] then []
    else
      var value := s.Apply("", words[|words| - 1])[0];
      Uniform(base, words[..|words| - 1], fields, s) + [base.(jsonData := OverwriteAll(base.jsonData, fields, value))]
  }

  /**
   * With the Replace strategy (the only one outside generation mode), the
   * i-th object has every target field equal to the i-th word, verbatim, and
   * agrees with the template everywhere else.
   */
  lemma {:induction false} UniformAt(base: Template, words: seq<string>, fields: seq<string>, i: nat)
    requires AreKeys(base.jsonData, fields)
    requires i < |words|
    ensures var t := Uniform(base, words, fields, Replace)[i];
      && t.otherFields == base.otherFields
      && t.jsonData.Keys == base.jsonData.Keys
      && (forall f :: f in fields ==> t.jsonData[f] == words[i])
      && (forall g :: g in base.jsonData && g !in fields ==> t.jsonData[g] == base.jsonData[g])
  {
    var n := |words| - 1;
    if i < n {
      UniformAt(base, words[..n], fields, i);
      assert Uniform(base, words, fields, Replace)[i] == Uniform(base, words[..n], fields, Replace)[i];
    }
  }

  /** The loops of uniform-replace mode. */
  method ReplaceUniformly(base: Template, words: seq<string>, fields: seq<string>, s: Strategy)
    returns (results: seq<Template>)
    requires AreKeys(base.jsonData, fields)
    ensures results == Uniform(base, words, fields, s)
    ensures |results| == |words|
  {
    results := [];
    for i := 0 to |words|
      invariant results == Uniform(base, words[..i], fields, s)
    {
      var word := words[i];
      assert words[..i + 1][..i] == words[..i];
      var copy := OverwriteCopy(base, fields, s.Apply("", word)[0]);
      results := results + [copy];
    }
    assert words[..|words|] == words;
  }

  /** The body of the outer loop of uniform-replace mode: one copy with every target overwritten. */
  method OverwriteCopy(base: Template, fields: seq<string>, valueToSet: string) returns (copy: Template)
    requires AreKeys(base.jsonData, fields)
    ensures copy == base.(jsonData := OverwriteAll(base.jsonData, fields, valueToSet))
  {
    copy := base;
    for j := 0 to |fields|
      invariant copy == base.(jsonData := OverwriteAll(base.jsonData, fields[..j], valueToSet))
    {
      var field := fields[j];
      assert fields[..j + 1][..j] == fields[..j];
      if field in copy.jsonData {
        copy := copy.(jsonData := copy.jsonData[field := valueToSet]);
      } else {
        assert false;
      }
    }
    assert fields[..|fields|] == fields;
  }
}
