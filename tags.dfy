/** `_get_tags`: the element tags of a DTD, text elements or the others, sorted. */
module Tags {
  import opened Outcomes
  import opened StrOrder

  /** `l` is a tag listing of `dtd` for `text`: strictly ascending, and holding
      exactly the tags whose text-ness is `text`, each once. */
  ghost predicate TagListing(dtd: Dtd, text: bool, l: seq<string>)
  {
    && Ascending(l)
    && forall k :: k in l <==> k in dtd && dtd[k] == text
  }

  /** Splits the DTD's tags into text and non-text tags, picks the group asked
      for and sorts it. */
  method GetTags(dtd: Dtd, text: bool) returns (l: seq<string>)
    ensures TagListing(dtd, text, l)
  {
    var lis: seq<string> := [];
    var texts: seq<string> := [];
    var pending := dtd.Keys;
    while pending != {}
      invariant pending <= dtd.Keys
      invariant forall k :: k in texts <==> k in dtd && k !in pending && dtd[k]
      invariant forall k :: k in lis <==> k in dtd && k !in pending && !dtd[k]
      invariant Distinct(texts) && Distinct(lis)
      decreases pending
    {
      var k :| k in pending;
      if dtd[k] {
        texts := texts + [k];
      } else {
        lis := lis + [k];
      }
      pending := pending - {k};
    }
    var chosen := if text then texts else lis;
    SortDistinct(chosen);
    l := Sort(chosen);
  }

  /** The listing is determined by the DTD and the flag: repeated calls agree. */
  lemma TagListingUnique(dtd: Dtd, text: bool, a: seq<string>, b: seq<string>)
    requires TagListing(dtd, text, a) && TagListing(dtd, text, b)
    ensures a == b
  {
    AscendingUnique(a, b);
  }

  /** The text listing and the non-text listing together hold every tag of the
      DTD exactly once. */
  lemma TagListingsPartition(dtd: Dtd, texts: seq<string>, others: seq<string>)
    requires TagListing(dtd, true, texts) && TagListing(dtd, false, others)
    ensures multiset(texts + others) == multiset(dtd.Keys)
  {
    AscendingDistinct(texts);
    AscendingDistinct(others);
    forall x ensures multiset(texts + others)[x] == multiset(dtd.Keys)[x] {
      DistinctCount(texts, x);
      DistinctCount(others, x);
    }
  }

  /** The element list of the exercise DTD the test suite uses. */
  lemma ExerciseDtdTags(dtd: Dtd, l: seq<string>)
    requires forall k :: k in dtd && !dtd[k] <==> k in {"Exercise", "comments", "mqm", "qcm", "test"}
    requires TagListing(dtd, false, l)
    ensures l == ["Exercise", "comments", "mqm", "qcm", "test"]
  {
    var expected := ["Exercise", "comments", "mqm", "qcm", "test"];
    assert Ascending(expected) by {
      assert Less("Exercise", "comments") && Less("comments", "mqm");
      assert Less("mqm", "qcm") && Less("qcm", "test");
      forall i, j | 0 <= i < j < 5 ensures Less(expected[i], expected[j]) {
        if j > i + 1 {
          assert Less(expected[i], expected[i + 1]);
          ChainLess(expected, i, j);
        }
      }
    }
    AscendingUnique(l, expected);
  }

  lemma ChainLess(s: seq<string>, i: int, j: int)
    requires 0 <= i < j < |s|
    requires forall k :: 0 <= k < |s| - 1 ==> Less(s[k], s[k + 1])
    ensures Less(s[i], s[j])
    decreases j - i
  {
    if j > i + 1 {
      ChainLess(s, i + 1, j);
      LessTransitive(s[i], s[i + 1], s[j]);
    }
  }
}
