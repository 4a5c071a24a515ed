/** The keys under which line information is stored in a document. */
module LineKeys {

  const LINES_KEY := "_kics_lines"
  const DEFAULT_KEY := "_kics__default"
  const LINE_KEY := "_kics_line"
  const ARR_KEY := "_kics_arr"

  /** The key for the line of `key`. */
  function Tagged(key: string): string {
    "_kics_" + key
  }

  lemma TaggedInjective(a: string, b: string)
    ensures Tagged(a) == Tagged(b) <==> a == b
  {
    assert Tagged(a)[6..] == a && Tagged(b)[6..] == b;
  }

  lemma TaggedOnce(b: string)
    ensures forall a :: Tagged(a) == Tagged(b) <==> a == b
  {
    forall a ensures Tagged(a) == Tagged(b) <==> a == b {
      TaggedInjective(a, b);
    }
  }

  lemma DefaultIsTagged()
    ensures Tagged("_default") == DEFAULT_KEY
  {
  }
}
