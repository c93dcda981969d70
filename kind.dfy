/** The kind of a manifest, derived from its file name alone, and the output
    stream that kind is routed to. File names follow `<category>_<kind>...yaml`. */
module Kind {
  import opened Wrappers
  import opened Text

  /** The three classified output streams. */
  datatype Stream = ObjectStream | CrdStream | SecretStream

  /** Segment 0 and segment 1 of the name split on `_`, joined by `-`, with one
      trailing `.yaml` removed; None when the name has no `_` (the index of
      segment 1 is then out of range). */
  function Classify(name: string): (kind: Option<string>)
    ensures kind.None? <==> '_' !in name
  {
    SplitSeveral(name, '_');
    var segs := Split(name, '_');
    if |segs| < 2 then None else Some(TrimSuffix(segs[0] + "-" + segs[1], ".yaml"))
  }

  /** For a name `a_b` or `a_b_...` the kind is `a-b` with one `.yaml` trimmed. */
  lemma ClassifyParts(a: string, b: string, rest: string)
    requires '_' !in a && '_' !in b
    requires rest == [] || rest[0] == '_'
    ensures Classify(a + "_" + b + rest) == Some(TrimSuffix(a + "-" + b, ".yaml"))
  {
    assert a + "_" + b + rest == a + ['_'] + (b + rest);
    SplitCons(a, '_', b + rest);
    SplitPrefix(b, rest, '_');
    if rest == [] {
      assert Split(rest, '_') == [""];
      assert b + "" == b;
    } else {
      assert rest == ['_'] + rest[1..];
      assert Split(rest, '_') == [""] + Split(rest[1..], '_');
      assert b + "" == b;
    }
  }


  /** The routing rule: a kind mentioning `CustomResourceDefinition` goes to the
      CRD stream even if it also mentions `Secret`; otherwise one mentioning
      `Secret` goes to the secret stream; everything else to the object stream. */
  function Route(kind: string): (s: Stream)
    ensures s == CrdStream <==> exists i :: OccursAt(kind, "CustomResourceDefinition", i)
    ensures s == SecretStream <==>
      (forall i :: !OccursAt(kind, "CustomResourceDefinition", i)) &&
      (exists i :: OccursAt(kind, "Secret", i))
    ensures s == ObjectStream <==>
      (forall i :: !OccursAt(kind, "CustomResourceDefinition", i)) &&
      (forall i :: !OccursAt(kind, "Secret", i))
  {
    if Contains(kind, "CustomResourceDefinition") then CrdStream
    else if Contains(kind, "Secret") then SecretStream
    else ObjectStream
  }
}
