/**
 * The dashboard's list of reports: all reports sorted newest first, shown three at a
 * time, with placeholder images swapped for generated ones as each batch is shown.
 * The image generator is the parameter `generate`, from a hint to a data URI or to
 * nothing when it fails.
 */
module Dashboard {
  import opened Wrappers
  import opened IssueTypes

  const ItemsPerPage: nat := 3
  const PlaceholderPrefix := "https://placehold.co"

  function Min(a: int, b: int): int {
    if a <= b then a else b
  }

  // ---------------------------------------------------------------------------
  // Sorting, newest first.

  /** Each report is at least as recent as the one after it. */
  predicate NewestFirst(s: seq<Issue>) {
    forall i :: 0 < i < |s| ==> s[i - 1].timestamp >= s[i].timestamp
  }

  /** In a newest-first list every report is at least as recent as every later one. */
  lemma {:induction false} NewestFirstOrdersAllPairs(s: seq<Issue>, i: nat, j: nat)
    requires NewestFirst(s) && i <= j < |s|
    ensures s[i].timestamp >= s[j].timestamp
    decreases j - i
  {
    if i < j {
      NewestFirstOrdersAllPairs(s, i + 1, j);
    }
  }

  /** A report no older than the head of a newest-first list can go in front of it. */
  lemma ConsNewestFirst(h: Issue, t: seq<Issue>)
    requires NewestFirst(t) && (t != [] ==> h.timestamp >= t[0].timestamp)
    ensures NewestFirst([h] + t)
  {
    var r := [h] + t;
    forall i | 0 < i < |r|
      ensures r[i - 1].timestamp >= r[i].timestamp
    {
      assert r[i] == t[i - 1];
      if i > 1 {
        assert r[i - 1] == t[i - 2];
      }
    }
  }

  /** Places `x` before the first report of `s` that is no more recent than `x`. */
  function Insert(x: Issue, s: seq<Issue>): (r: seq<Issue>)
    requires NewestFirst(s)
    ensures NewestFirst(r) && |r| == |s| + 1
    ensures r[0] == x || (s != [] && r[0] == s[0])
  {
    if s == [] || x.timestamp >= s[0].timestamp then
      ConsNewestFirst(x, s);
      [x] + s
    else
      var rest := Insert(x, s[1..]);
      ConsNewestFirst(s[0], rest);
      [s[0]] + rest
  }

  /** Inserting adds exactly the one report and loses none. */
  lemma {:induction false} InsertAddsOne(x: Issue, s: seq<Issue>)
    requires NewestFirst(s)
    ensures multiset(Insert(x, s)) == multiset(s) + multiset{x}
  {
    if s != [] && x.timestamp < s[0].timestamp {
      InsertAddsOne(x, s[1..]);
      assert s == [s[0]] + s[1..];
    }
  }

  /**
   * `[...issues].sort((a, b) => b.timestamp - a.timestamp)`: a copy, newest first.
   * Each report is inserted, in front of the reports after it that share its
   * timestamp, so equal timestamps keep their original order, as JavaScript's
   * stable sort does.
   */
  function SortNewestFirst(s: seq<Issue>): (r: seq<Issue>)
    ensures NewestFirst(r) && |r| == |s|
  {
    if s == [] then [] else Insert(s[0], SortNewestFirst(s[1..]))
  }

  lemma MultisetCons(s: seq<Issue>)
    requires s != []
    ensures multiset(s) == multiset(s[1..]) + multiset{s[0]}
  {
    assert s == [s[0]] + s[1..];
  }

  lemma SortUnfolds(s: seq<Issue>)
    requires s != []
    ensures SortNewestFirst(s) == Insert(s[0], SortNewestFirst(s[1..]))
  {
  }

  /** The sorted copy holds exactly the reports it was given, each as often. */
  lemma {:induction false} SortIsPermutation(s: seq<Issue>)
    ensures multiset(SortNewestFirst(s)) == multiset(s)
  {
    if s != [] {
      SortIsPermutation(s[1..]);
      SortUnfolds(s);
      InsertAddsOne(s[0], SortNewestFirst(s[1..]));
      MultisetCons(s);
    }
  }

  // ---------------------------------------------------------------------------
  // Generated images.

  /** A report still showing a placeholder image and carrying a hint to generate from. */
  predicate WantsGeneratedImage(issue: Issue) {
    issue.imageUrl.Some? && PlaceholderPrefix <= issue.imageUrl.value &&
    issue.imageAiHint.Some? && issue.imageAiHint.value != ""
  }

  /** The generator, asked with the report's hint, gives back a non-empty URI. */
  predicate GeneratesUri(generate: string -> Option<string>, issue: Issue)
    requires WantsGeneratedImage(issue)
  {
    var uri := generate(issue.imageAiHint.value);
    uri.Some? && uri.value != ""
  }

  /** Two reports that differ at most in their image. */
  predicate SameExceptImage(a: Issue, b: Issue) {
    a.(imageUrl := b.imageUrl) == b
  }

  function WithGeneratedImage(issue: Issue, generate: string -> Option<string>): Issue {
    if WantsGeneratedImage(issue) && GeneratesUri(generate, issue)
    then issue.(imageUrl := generate(issue.imageAiHint.value))
    else issue
  }

  /**
   * `generateImagesForBatch`: the same reports in the same order; a report's image
   * changes only when it was a placeholder with a hint and the generator gave back a
   * URI, and then to that URI; otherwise, failure included, the report is kept as it was.
   */
  function GenerateImagesForBatch(batch: seq<Issue>, generate: string -> Option<string>): (r: seq<Issue>)
    ensures |r| == |batch|
    ensures forall i :: 0 <= i < |r| ==> SameExceptImage(r[i], batch[i])
    ensures forall i :: 0 <= i < |r| && r[i].imageUrl != batch[i].imageUrl ==>
      WantsGeneratedImage(batch[i]) && GeneratesUri(generate, batch[i]) &&
      r[i].imageUrl == generate(batch[i].imageAiHint.value)
    ensures forall i :: 0 <= i < |r| && !(WantsGeneratedImage(batch[i]) && GeneratesUri(generate, batch[i])) ==>
      r[i] == batch[i]
    ensures forall i :: 0 <= i < |r| && WantsGeneratedImage(batch[i]) && GeneratesUri(generate, batch[i]) ==>
      r[i].imageUrl == generate(batch[i].imageAiHint.value)
  {
    seq(|batch|, i requires 0 <= i < |batch| => WithGeneratedImage(batch[i], generate))
  }

  // ---------------------------------------------------------------------------
  // The page's state.

  /** The shown list is, report by report and up to the image, the start of the sorted list. */
  predicate ShowsPrefixOf(displayed: seq<Issue>, raw: seq<Issue>) {
    |displayed| <= |raw| &&
    forall i :: 0 <= i < |displayed| ==> SameExceptImage(displayed[i], raw[i])
  }

  /** Appending the next slice of the sorted list, with generated images, extends the prefix. */
  lemma AppendSliceKeepsPrefix(displayed: seq<Issue>, raw: seq<Issue>, end: nat,
                               generate: string -> Option<string>)
    requires ShowsPrefixOf(displayed, raw) && |displayed| <= end <= |raw|
    ensures var shown := displayed + GenerateImagesForBatch(raw[|displayed|..end], generate);
      |shown| == end && ShowsPrefixOf(shown, raw)
  {
    var batch := GenerateImagesForBatch(raw[|displayed|..end], generate);
    var shown := displayed + batch;
    forall i | |displayed| <= i < end
      ensures SameExceptImage(shown[i], raw[i])
    {
      assert shown[i] == batch[i - |displayed|];
      assert raw[|displayed|..end][i - |displayed|] == raw[i];
    }
  }

  class DashboardPage {
    var allRawIssues: seq<Issue>
    var displayedIssues: seq<Issue>
    var currentPage: nat
    var isLoading: bool
    var isLoadingMore: bool
    var hasMore: bool

    /**
     * The pagination invariant: what is shown is, report by report and up to the
     * image, the first `currentPage` pages of the sorted list, and `hasMore` says
     * whether reports remain beyond them.
     */
    ghost predicate Paged()
      reads this
    {
      |displayedIssues| == Min(currentPage * ItemsPerPage, |allRawIssues|) &&
      ShowsPrefixOf(displayedIssues, allRawIssues) &&
      hasMore == (|allRawIssues| > currentPage * ItemsPerPage)
    }

    constructor ()
      ensures allRawIssues == [] && displayedIssues == [] && currentPage == 1
      ensures isLoading && !isLoadingMore && hasMore
    {
      allRawIssues := [];
      displayedIssues := [];
      currentPage := 1;
      isLoading := true;
      isLoadingMore := false;
      hasMore := true;
    }

    /** The first effect: the sorted copy of the reports becomes the raw list and loading ends. */
    method LoadRawIssues(issues: seq<Issue>)
      modifies this
      ensures allRawIssues == SortNewestFirst(issues) && !isLoading
      ensures displayedIssues == old(displayedIssues) && currentPage == old(currentPage)
      ensures isLoadingMore == old(isLoadingMore) && hasMore == old(hasMore)
    {
      var sortedIssues := SortNewestFirst(issues);
      allRawIssues := sortedIssues;
      isLoading := false;
    }

    /**
     * The second effect, `loadInitialBatch`: with reports loaded, show the first page;
     * with none, or still loading, do nothing.
     */
    method LoadInitialBatch(generate: string -> Option<string>)
      modifies this
      ensures |old(allRawIssues)| == 0 || old(isLoading) ==>
        displayedIssues == old(displayedIssues) && currentPage == old(currentPage) &&
        hasMore == old(hasMore) && isLoadingMore == old(isLoadingMore)
      ensures |old(allRawIssues)| != 0 && !old(isLoading) ==>
        displayedIssues == GenerateImagesForBatch(allRawIssues[..Min(ItemsPerPage, |allRawIssues|)], generate) &&
        currentPage == 1 && hasMore == (|allRawIssues| > ItemsPerPage) && !isLoadingMore && Paged()
      ensures allRawIssues == old(allRawIssues) && isLoading == old(isLoading)
    {
      if |allRawIssues| == 0 || isLoading {
        return;
      }
      isLoadingMore := true;
      var initialBatchRaw := allRawIssues[..Min(ItemsPerPage, |allRawIssues|)];
      var initialBatchWithImages := GenerateImagesForBatch(initialBatchRaw, generate);
      displayedIssues := initialBatchWithImages;
      currentPage := 1;
      hasMore := |allRawIssues| > ItemsPerPage;
      isLoadingMore := false;
    }

    /**
     * `handleLoadMore`: nothing while no more are expected or a load is running; an empty
     * next slice only clears `hasMore`; otherwise the slice, with generated images, is
     * appended and the page count advances.
     */
    method HandleLoadMore(generate: string -> Option<string>)
      modifies this
      ensures allRawIssues == old(allRawIssues) && isLoading == old(isLoading)
      ensures !old(hasMore) || old(isLoadingMore) ==>
        displayedIssues == old(displayedIssues) && currentPage == old(currentPage) &&
        hasMore == old(hasMore) && isLoadingMore == old(isLoadingMore)
      ensures old(hasMore) && !old(isLoadingMore) && |allRawIssues| <= old(currentPage) * ItemsPerPage ==>
        displayedIssues == old(displayedIssues) && currentPage == old(currentPage) && !hasMore && !isLoadingMore
      ensures old(hasMore) && !old(isLoadingMore) && |allRawIssues| > old(currentPage) * ItemsPerPage ==>
        var start := old(currentPage) * ItemsPerPage;
        var end := start + ItemsPerPage;
        displayedIssues == old(displayedIssues) + GenerateImagesForBatch(allRawIssues[start..Min(end, |allRawIssues|)], generate) &&
        currentPage == old(currentPage) + 1 && hasMore == (|allRawIssues| > end) && !isLoadingMore
      ensures old(Paged()) ==> Paged()
    {
      ghost var wasPaged := Paged();
      if !hasMore || isLoadingMore {
        return;
      }
      isLoadingMore := true;
      var nextPage := currentPage + 1;
      var startIndex := currentPage * ItemsPerPage;
      var endIndex := startIndex + ItemsPerPage;
      var nextBatchRaw := if startIndex < |allRawIssues| then allRawIssues[startIndex..Min(endIndex, |allRawIssues|)] else [];
      if |nextBatchRaw| == 0 {
        hasMore := false;
        isLoadingMore := false;
        return;
      }
      var nextBatchWithImages := GenerateImagesForBatch(nextBatchRaw, generate);
      if wasPaged {
        AppendSliceKeepsPrefix(displayedIssues, allRawIssues, Min(endIndex, |allRawIssues|), generate);
      }
      displayedIssues := displayedIssues + nextBatchWithImages;
      currentPage := nextPage;
      hasMore := |allRawIssues| > endIndex;
      isLoadingMore := false;
    }
  }
}
