/**
 * Worked runs on the processor tests' sample object `{"id": 1, "json_data":
 * {"field_a": "val_a", "field_b": "val_b"}}` with the words "w1", "w2", the
 * target set iterated as field_a, field_b.
 */
module Scenarios {
  import opened Strategies
  import opened Templates
  import opened Expansion
  import opened Collections

  const Sample := Obj("val_a", "val_b")

  function Obj(a: string, b: string): Template {
    Template(map["field_a" := a, "field_b" := b], map["id" := JNumber(1)])
  }

  lemma SetFieldA(a: string, b: string, v: string)
    ensures Obj(a, b).WithField("field_a", v) == Obj(v, b)
  {
    assert Obj(a, b).jsonData["field_a" := v] == Obj(v, b).jsonData;
  }

  lemma SetFieldB(a: string, b: string, v: string)
    ensures Obj(a, b).WithField("field_b", v) == Obj(a, v)
  {
    assert Obj(a, b).jsonData["field_b" := v] == Obj(a, v).jsonData;
  }

  /** Replace mode: one object per word, both fields overwritten with it. */
  lemma ReplaceModeRun()
    ensures Uniform(Sample, ["w1", "w2"], ["field_a", "field_b"], Replace) ==
      [Obj("w1", "w1"), Obj("w2", "w2")]
  {
    var words := ["w1", "w2"];
    var fields := ["field_a", "field_b"];
    forall w | w in words
      ensures OverwriteAll(Sample.jsonData, fields, w) == Obj(w, w).jsonData
    {
      assert fields[..1] == ["field_a"];
      assert OverwriteAll(Sample.jsonData, fields[..1], w) == Obj(w, "val_b").jsonData by {
        SetFieldA("val_a", "val_b", w);
      }
      SetFieldB(w, "val_b", w);
    }
    assert words[..1] == ["w1"];
    assert Uniform(Sample, words[..1], fields, Replace) == [Obj("w1", "w1")];
  }

  /** One word under Both: field_a's prefix and suffix forms, then field_b's. */
  lemma BothModeWord(w: string)
    ensures ForWord(Sample, w, ["field_a", "field_b"], Both) ==
      [ Obj(w + "val_a", "val_b"), Obj("val_a" + w, "val_b"), Obj("val_a", w + "val_b"), Obj("val_a", "val_b" + w) ]
  {
    var fields := ["field_a", "field_b"];
    var a := [Obj(w + "val_a", "val_b"), Obj("val_a" + w, "val_b")];
    var b := [Obj("val_a", w + "val_b"), Obj("val_a", "val_b" + w)];
    var blocks := FieldBlocks(Sample, w, fields, Both);
    assert blocks[0] == a by {
      assert blocks[0] == Variants(Sample, "field_a", [w + "val_a", "val_a" + w]);
      BothOnFieldA(w + "val_a", "val_a" + w);
    }
    assert blocks[1] == b by {
      assert blocks[1] == Variants(Sample, "field_b", [w + "val_b", "val_b" + w]);
      BothOnFieldB(w + "val_b", "val_b" + w);
    }
    assert blocks == [a, b];
    FlattenPair(a, b);
  }

  lemma BothOnFieldA(x: string, y: string)
    ensures Variants(Sample, "field_a", [x, y]) == [Obj(x, "val_b"), Obj(y, "val_b")]
  {
    SetFieldA("val_a", "val_b", x);
    SetFieldA("val_a", "val_b", y);
  }

  lemma BothOnFieldB(x: string, y: string)
    ensures Variants(Sample, "field_b", [x, y]) == [Obj("val_a", x), Obj("val_a", y)]
  {
    SetFieldB("val_a", "val_b", x);
    SetFieldB("val_a", "val_b", y);
  }

  /** The joins of the scenario words with the sample values, spelled out. */
  lemma Joined(w: string)
    requires w == "w1" || w == "w2"
    ensures w == "w1" ==> w + "val_a" == "w1val_a" && "val_a" + w == "val_aw1"
    ensures w == "w1" ==> w + "val_b" == "w1val_b" && "val_b" + w == "val_bw1"
    ensures w == "w2" ==> w + "val_a" == "w2val_a" && "val_a" + w == "val_aw2"
    ensures w == "w2" ==> w + "val_b" == "w2val_b" && "val_b" + w == "val_bw2"
  {
  }

  /** Both mode: per word and field, the prefix form and then the suffix form. */
  lemma BothModeRun()
    ensures ByField(Sample, ["w1", "w2"], ["field_a", "field_b"], Both) ==
      [ Obj("w1val_a", "val_b"), Obj("val_aw1", "val_b"), Obj("val_a", "w1val_b"), Obj("val_a", "val_bw1"),
        Obj("w2val_a", "val_b"), Obj("val_aw2", "val_b"), Obj("val_a", "w2val_b"), Obj("val_a", "val_bw2") ]
  {
    var words := ["w1", "w2"];
    var fields := ["field_a", "field_b"];
    var first := [Obj("w1val_a", "val_b"), Obj("val_aw1", "val_b"), Obj("val_a", "w1val_b"), Obj("val_a", "val_bw1")];
    var second := [Obj("w2val_a", "val_b"), Obj("val_aw2", "val_b"), Obj("val_a", "w2val_b"), Obj("val_a", "val_bw2")];
    assert ForWord(Sample, "w1", fields, Both) == first by {
      BothModeWord("w1");
      Joined("w1");
    }
    assert ForWord(Sample, "w2", fields, Both) == second by {
      BothModeWord("w2");
      Joined("w2");
    }
    assert WordBlocks(Sample, words, fields, Both) == [first, second];
    FlattenPair(first, second);
  }
}
