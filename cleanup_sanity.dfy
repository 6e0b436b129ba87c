/**
 * scripts/cleanup-sanity.ts: the ids the seed script writes, the lookup of
 * those still present, and one transaction that deletes each of them.
 */
module CleanupSanity {
  import opened Common
  import opened SeedSanity

  /** `seededIds`, with the nine FAQ ids spelled `faq-${i + 1}`. */
  function SeededIds(): (ids: seq<string>)
    ensures |ids| == 21
  {
    ["siteSettings", "cabin-standard-cabin", "cabin-cabin-suite"]
    + seq(9, i requires 0 <= i < 9 => "faq-" + NumberToString(i + 1))
    + ["policy-pet-policy", "policy-cancellation-policy", "policy-check-in-check-out", "policy-accessibility"]
    + ["page-home", "page-stay", "page-buyouts", "page-story", "page-contact"]
  }

  /** The cleanup list is the seed's id list for nine FAQ entries. */
  lemma SeededIdsAreSeedIdList()
    ensures SeededIds() == SeedIdList(9)
  {
    assert seq(9, i requires 0 <= i < 9 => "faq-" + NumberToString(i + 1)) == FaqIdList(9);
  }

  /** The cleanup list names exactly the documents the seed writes, in the same order, when there are nine FAQ entries. */
  lemma SeededIdsMatchSeed(copy: Copy, faqs: seq<FaqCopy>)
    requires |faqs| == 9
    ensures SeededIds() == Ids(SeedDocuments(copy, faqs))
    ensures NoDuplicates(SeededIds())
  {
    SeedIds(copy, faqs);
    SeedIdsDistinct(9);
    SeededIdsAreSeedIdList();
  }

  /** The script's own list matches the script's own seed. */
  lemma SeededIdsMatchScript()
    ensures SeededIds() == Ids(SeedDocuments(SeedCopy, FaqEntries))
  {
    FaqCount();
    SeededIdsMatchSeed(SeedCopy, FaqEntries);
  }

  /** The documents of `m` except those whose id is listed. */
  function Without(m: map<string, SeedDocument>, ids: seq<string>): (r: map<string, SeedDocument>)
    ensures forall k :: k in r <==> k in m && k !in ids
    ensures forall k :: k in r ==> r[k] == m[k]
  {
    map k | k in m && k !in ids :: m[k]
  }

  /**
   * What `*[_id in $ids]{ _id }` can return for `ids`: each id it lists is
   * one of `ids` present in the dataset, and every such id is listed. The
   * order is the query's own.
   */
  ghost predicate IsLookupOf(existing: seq<string>, m: map<string, SeedDocument>, ids: seq<string>) {
    forall k :: k in existing <==> k in ids && k in m
  }

  /** `client.transaction()`: deletions queued until the commit. */
  class Transaction {
    var deletes: seq<string>

    constructor ()
      ensures deletes == []
    {
      deletes := [];
    }

    method Delete(id: string)
      modifies this
      ensures deletes == old(deletes) + [id]
    {
      deletes := deletes + [id];
    }

    /** `transaction.commit()`: every queued id is removed together. */
    method Commit(ds: Dataset)
      modifies ds
      ensures ds.documents == Without(old(ds.documents), deletes)
    {
      ds.documents := Without(ds.documents, deletes);
    }
  }

  /**
   * `cleanup()` given what the lookup returned: when it found nothing no
   * transaction is made; otherwise one transaction queues one delete per
   * id found, in the order found, and is committed. The result is the
   * committed list of deletes, if any.
   */
  method Cleanup(ds: Dataset, existing: seq<string>) returns (committed: Option<seq<string>>)
    modifies ds
    ensures committed.None? <==> existing == []
    ensures committed.Some? ==> committed.value == existing
    ensures ds.documents == Without(old(ds.documents), existing)
  {
    if |existing| == 0 {
      assert Without(ds.documents, existing) == ds.documents;
      return None;
    }
    var transaction := new Transaction();
    for i := 0 to |existing|
      invariant transaction.deletes == existing[..i]
      invariant ds.documents == old(ds.documents)
    {
      transaction.Delete(existing[i]);
      assert existing[..i + 1] == existing[..i] + [existing[i]];
    }
    assert existing[..|existing|] == existing;
    transaction.Commit(ds);
    return Some(transaction.deletes);
  }

  /** Deleting what the lookup found removes every seeded id and keeps everything else. */
  lemma CleanupRemovesSeeded(m: map<string, SeedDocument>, existing: seq<string>)
    requires IsLookupOf(existing, m, SeededIds())
    ensures Without(m, existing) == Without(m, SeededIds())
  {
  }

  /** Cleaning up after a seed restores a dataset that held none of the seeded ids. */
  lemma CleanupUndoesSeed(m: map<string, SeedDocument>, copy: Copy, faqs: seq<FaqCopy>, existing: seq<string>)
    requires |faqs| == 9
    requires forall k :: k in SeededIds() ==> k !in m
    requires IsLookupOf(existing, Upserted(m, SeedDocuments(copy, faqs)), SeededIds())
    ensures Without(Upserted(m, SeedDocuments(copy, faqs)), existing) == m
  {
    var docs := SeedDocuments(copy, faqs);
    var seeded := Upserted(m, docs);
    SeededIdsMatchSeed(copy, faqs);
    UpsertedKeys(m, docs);
    forall k | k in m
      ensures k in Without(seeded, existing) && Without(seeded, existing)[k] == m[k]
    {
      UpsertedUntouched(m, docs, k);
    }
  }

  /** After a seed the lookup finds every seeded id, so the commit happens. */
  lemma SeedThenCleanupCommits(m: map<string, SeedDocument>, copy: Copy, faqs: seq<FaqCopy>, existing: seq<string>)
    requires |faqs| == 9
    requires IsLookupOf(existing, Upserted(m, SeedDocuments(copy, faqs)), SeededIds())
    ensures existing != [] && forall k :: k in SeededIds() ==> k in existing
  {
    var docs := SeedDocuments(copy, faqs);
    SeededIdsMatchSeed(copy, faqs);
    UpsertedKeys(m, docs);
    assert SeededIds()[0] in existing;
  }
}
