/**
 * The fenced-block pattern both the backend and the page controller search
 * for: three backticks, `mermaid` and a newline, then a lazily matched body
 * of any characters, then a newline and three backticks. A regular-expression
 * search reports the leftmost match, and for that start the shortest body.
 */
module MermaidFence {
  import opened Wrappers
  import opened Text

  const Opener: string := "```mermaid\n"
  const Closer: string := "\n```"

  /** A match of the pattern: opener at `i`, closer at `j`, the closer starting after the opener's newline. */
  predicate IsFencePair(text: string, i: int, j: int) {
    OccursAt(text, Opener, i) && i + |Opener| <= j && OccursAt(text, Closer, j)
  }

  /** The text contains a fenced mermaid block. */
  ghost predicate HasFence(text: string) {
    exists i, j :: IsFencePair(text, i, j)
  }

  /** The match a search reports: no match starts earlier, and no closer ends the body sooner. */
  ghost predicate IsSearchMatch(text: string, i: int, j: int) {
    IsFencePair(text, i, j)
    && (forall i', j' :: i' < i ==> !IsFencePair(text, i', j'))
    && (forall j' :: i + |Opener| <= j' < j ==> !OccursAt(text, Closer, j'))
  }

  /** Where the reported match lies: `start` holds the opener, `close` the closer. */
  datatype Fence = Fence(start: nat, close: nat)

  /**
   * The regular-expression search: the first opener in the text, and the
   * first closer after its newline.
   */
  function FindFence(text: string): (r: Option<Fence>)
    ensures r.None? <==> !HasFence(text)
    ensures r.Some? ==> IsSearchMatch(text, r.value.start, r.value.close)
  {
    match FirstOccurrence(text, Opener, 0)
    case None =>
      assert forall i, j :: !IsFencePair(text, i, j) by {
        forall i, j ensures !IsFencePair(text, i, j) {
          if 0 <= i { assert !OccursAt(text, Opener, i); }
        }
      }
      None
    case Some(i) =>
      match FirstOccurrence(text, Closer, i + |Opener|)
      case None =>
        // a later opener's closer would also close the first opener
        assert forall i', j' :: !IsFencePair(text, i', j') by {
          forall i', j' ensures !IsFencePair(text, i', j') {
            if i + |Opener| <= j' {
              assert !OccursAt(text, Closer, j');
            } else if 0 <= i' < i {
              assert !OccursAt(text, Opener, i');
            }
          }
        }
        None
      case Some(j) =>
        assert forall i', j' :: i' < i ==> !IsFencePair(text, i', j') by {
          forall i', j' | i' < i ensures !IsFencePair(text, i', j') {
            if 0 <= i' { assert !OccursAt(text, Opener, i'); }
          }
        }
        assert IsFencePair(text, i, j);
        Some(Fence(i, j))
  }

  /** There is at most one match a search can report. */
  lemma SearchMatchUnique(text: string, i: int, j: int, i2: int, j2: int)
    requires IsSearchMatch(text, i, j) && IsSearchMatch(text, i2, j2)
    ensures i == i2 && j == j2
  {
  }

  /** The whole matched block, delimiters included (the regex's group 0). */
  function Block(text: string, f: Fence): string
    requires IsFencePair(text, f.start, f.close)
  {
    text[f.start..f.close + |Closer|]
  }

  /** The text between the delimiters (the regex's group 1). */
  function Body(text: string, f: Fence): string
    requires IsFencePair(text, f.start, f.close)
  {
    text[f.start + |Opener|..f.close]
  }
}
