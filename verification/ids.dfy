/**
 * How every store names a new record: a fixed prefix followed by the length
 * of the collection plus one (`bike4`, `shop7`, `user12`, …).
 */
module Ids {
  import Text

  /** The ids a store holds when nothing was ever deleted: the i-th record is `prefix(i+1)`. */
  predicate Canonical(ids: seq<string>, prefix: string) {
    forall i :: 0 <= i < |ids| ==> ids[i] == Text.Id(prefix, i + 1)
  }

  /** No id occurs twice. */
  predicate Unique(ids: seq<string>) {
    forall i, j :: 0 <= i < j < |ids| ==> ids[i] != ids[j]
  }

  /** Canonically numbered ids are pairwise distinct. */
  lemma CanonicalUnique(ids: seq<string>, prefix: string)
    requires Canonical(ids, prefix)
    ensures Unique(ids)
  {
    forall i, j | 0 <= i < j < |ids| ensures ids[i] != ids[j] {
      Text.IdInjective(prefix, i + 1, j + 1);
    }
  }

  /** While nothing was deleted, the next generated id is new, and appending it keeps the numbering. */
  lemma NextIdFresh(ids: seq<string>, prefix: string)
    requires Canonical(ids, prefix)
    ensures Text.Id(prefix, |ids| + 1) !in ids
    ensures Canonical(ids + [Text.Id(prefix, |ids| + 1)], prefix)
  {
    forall i | 0 <= i < |ids| ensures ids[i] != Text.Id(prefix, |ids| + 1) {
      Text.IdInjective(prefix, i + 1, |ids| + 1);
    }
  }

  /** Once a record other than the last is removed, the next generated id is the
      last record's id, which is still in use. */
  lemma DeleteThenAddRepeatsId(ids: seq<string>, prefix: string, k: nat)
    requires Canonical(ids, prefix)
    requires k < |ids| - 1
    ensures var rest := ids[..k] + ids[k + 1..];
            Text.Id(prefix, |rest| + 1) == ids[|ids| - 1] && ids[|ids| - 1] in rest
  {
    var rest := ids[..k] + ids[k + 1..];
    assert rest[|rest| - 1] == ids[|ids| - 1];
  }
}
