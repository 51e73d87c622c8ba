/**
 * The closed family of value transformations (`TransformationStrategy` and its
 * five implementations). `Apply(original, word)` yields the list of new field
 * values; the source wraps each in a `{"field_value": ...}` dictionary, which
 * carries nothing else and is represented here by the string itself.
 */
module Strategies {

  /** `suffix` is a final segment of `s`. */
  predicate EndsWith(s: string, suffix: string) {
    |suffix| <= |s| && s[|s| - |suffix|..] == suffix
  }

  datatype Strategy =
    | Replace
    | Prefix
    | Suffix
    | Both
    | Generator(base: string)  // base: the template's original value of the generated field
  {
    /** How many new values one call of `Apply` produces. */
    function Fanout(): (n: nat)
      ensures n == 1 || n == 2
      ensures n == 2 <==> Both?
    {
      if Both? then 2 else 1
    }

    function Apply(original: string, word: string): (r: seq<string>)
      ensures |r| == Fanout()
      // Every produced value contains the word verbatim at one of its ends.
      ensures forall v :: v in r ==> word <= v || EndsWith(v, word)
      // Replace and Generator never look at the original value.
      ensures Replace? ==> r[0] == word
      ensures Generator? ==> EndsWith(r[0], word) && base <= r[0] && |r[0]| == |base| + |word|
      // Prefix-style and suffix-style outputs keep the whole original value.
      ensures Prefix? || Both? ==> word <= r[0] && EndsWith(r[0], original) && |r[0]| == |word| + |original|
      ensures Suffix? ==> original <= r[0] && EndsWith(r[0], word) && |r[0]| == |original| + |word|
      ensures Both? ==> original <= r[1] && EndsWith(r[1], word) && |r[1]| == |original| + |word|
    {
      match this
      case Replace => [word]
      case Prefix => [word + original]
      case Suffix => [original + word]
      case Both => [word + original, original + word]
      case Generator(base) => [base + word]
    }
  }

  /** Both is exactly Prefix followed by Suffix: the prefix form first. */
  lemma BothIsPrefixThenSuffix(original: string, word: string)
    ensures Both.Apply(original, word) == Prefix.Apply(original, word) + Suffix.Apply(original, word)
  {
  }

  /** Replace and Generator(base) produce values independent of the original value. */
  lemma IgnoresOriginal(s: Strategy, original1: string, original2: string, word: string)
    requires s.Replace? || s.Generator?
    ensures s.Apply(original1, word) == s.Apply(original2, word)
  {
  }

  /** The original value can be recovered from every Prefix, Suffix and Both output. */
  lemma {:induction false} OriginalRecoverable(s: Strategy, original: string, word: string, k: nat)
    requires s.Prefix? || s.Suffix? || s.Both?
    requires k < s.Fanout()
    ensures var v := s.Apply(original, word)[k];
      |v| == |word| + |original| &&
      (if s.Prefix? || (s.Both? && k == 0) then v[|word|..] == original && v[..|word|] == word
       else v[..|original|] == original && v[|original|..] == word)
  {
    var v := s.Apply(original, word)[k];
    if s.Prefix? || (s.Both? && k == 0) {
      assert v == word + original;
    } else {
      assert v == original + word;
    }
  }
}
