/**
 * Target-field selection (`JsonProcessor._determine_target_fields` without
 * its warnings): set algebra over the keys of `json_data`.
 */
module FieldSelection {
  import opened Wrappers
  import opened Collections
  import opened Configuration

  /**
   * The fields a run rewrites, or the fatal error. Generator mode targets
   * only the `--gen` field; otherwise --include intersects, --ignore
   * subtracts, and with neither every field is a target.
   */
  function SelectTargets(c: AppConfig, available: set<string>): (r: Result<set<string>, ConfigError>)
    ensures r.Success? ==> r.value <= available
    ensures r.Failure? <==>
      (IsGeneratorMode(c) && c.genField.value !in available) ||
      (!IsGeneratorMode(c) && c.includeFields != [] && forall f :: f in c.includeFields ==> f !in available)
    ensures r.Failure? && IsGeneratorMode(c) ==> r.error == GenFieldMissing(c.genField.value)
    ensures r.Failure? && !IsGeneratorMode(c) ==> r.error == NoIncludedField(c.includeFields)
    ensures r.Success? && IsGeneratorMode(c) ==> r.value == {c.genField.value}
  {
    if IsGeneratorMode(c) then
      var field := c.genField.value;
      if field !in available then Failure(GenFieldMissing(field)) else Success({field})
    else if |c.includeFields| > 0 then
      var targets := available * Elements(c.includeFields);
      assert forall f :: f in c.includeFields && f in available ==> f in targets;
      if targets == {} then Failure(NoIncludedField(c.includeFields)) else Success(targets)
    else if |c.ignoreFields| > 0 then
      Success(available - Elements(c.ignoreFields))
    else
      Success(available)
  }

  /**
   * Field by field, outside generator mode: a field is a target exactly when
   * it is available and, if --include is given, listed there, and, if
   * --ignore is given instead, not listed there.
   */
  lemma SelectedFieldsOutsideGeneratorMode(c: AppConfig, available: set<string>, f: string)
    requires !IsGeneratorMode(c) && SelectTargets(c, available).Success?
    ensures f in SelectTargets(c, available).value <==>
      && f in available
      && (c.includeFields != [] ==> f in c.includeFields)
      && (c.includeFields == [] && c.ignoreFields != [] ==> f !in c.ignoreFields)
  {
  }

  /** --ignore never fails, even when it leaves no field to rewrite. */
  lemma IgnoreNeverFails(c: AppConfig, available: set<string>)
    requires !IsGeneratorMode(c) && c.includeFields == []
    ensures SelectTargets(c, available).Success?
    ensures c.ignoreFields == [] ==> SelectTargets(c, available).value == available
  {
  }

  /**
   * An enumeration of a set in an order the model leaves open, as Python
   * iterates a `set`: each element exactly once.
   */
  method IterationOrder(s: set<string>) returns (order: seq<string>)
    ensures Elements(order) == s
    ensures NoDuplicates(order)
    ensures |order| == |s|
  {
    order := [];
    var rest := s;
    while rest != {}
      invariant Elements(order) + rest == s
      invariant Elements(order) !! rest
      invariant NoDuplicates(order)
      invariant |order| + |rest| == |s|
      decreases |rest|
    {
      var f :| f in rest;
      AppendFresh(order, f);
      order := order + [f];
      rest := rest - {f};
    }
  }
}
