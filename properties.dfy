/** Properties files seen as collections of lines, compared as sets. */
module Properties {

  function LineSet(lines: seq<string>): set<string> {
    set l | l in lines
  }

  /**
   * The rewrite rule of the config-changed handler: the symmetric difference
   * of the current and the target lines is non-empty.
   */
  predicate PropertiesChanged(current: seq<string>, target: seq<string>) {
    (LineSet(current) - LineSet(target)) + (LineSet(target) - LineSet(current)) != {}
  }

  /**
   * The files count as changed exactly when some line is in one and not in
   * the other, that is, when their line sets differ; order and repetition
   * do not matter.
   */
  lemma PropertiesChangedMeansSomeLineDiffers(current: seq<string>, target: seq<string>)
    ensures PropertiesChanged(current, target) <==>
      exists l :: (l in current && l !in target) || (l in target && l !in current)
    ensures !PropertiesChanged(current, target) <==> LineSet(current) == LineSet(target)
  {
    var diff := (LineSet(current) - LineSet(target)) + (LineSet(target) - LineSet(current));
    if diff != {} {
      var l :| l in diff;
      assert l in current || l in target;
    } else {
      assert forall l :: l in current ==> l in LineSet(current);
      assert forall l :: l in target ==> l in LineSet(target);
    }
  }

  /** The distinct `lines` that are not among `excluded`. */
  function WithoutLines(lines: seq<string>, excluded: seq<string>): (r: set<string>)
    ensures forall l :: l in r <==> l in lines && l !in excluded
  {
    LineSet(lines) - LineSet(excluded)
  }
}
