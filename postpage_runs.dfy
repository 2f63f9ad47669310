/** Properties of the page over several events: the unchecking filter, the append-only
    list while paging, and the guards that stop the cursor from moving. */
module PostPageRuns {
  import opened PostPageModel

  // ---------------------------------------------------------------------------
  // The checked list

  /** Unchecking keeps the other ids in their order: the filter distributes over concatenation. */
  lemma {:induction false} WithoutConcat<T>(a: seq<T>, b: seq<T>, x: T)
    ensures Without(a + b, x) == Without(a, x) + Without(b, x)
  {
    if a == [] {
      assert a + b == b;
    } else {
      assert (a + b)[1..] == a[1..] + b;
      WithoutConcat(a[1..], b, x);
    }
  }

  /** Unchecking an id that is not in the list leaves the list as it is. */
  lemma {:induction false} WithoutAbsent<T>(list: seq<T>, x: T)
    requires x !in list
    ensures Without(list, x) == list
  {
    if list != [] {
      WithoutAbsent(list[1..], x);
    }
  }

  /** Checking and then unchecking an id that was not checked restores the checked list. */
  lemma CheckThenUncheck(v: View, item: string)
    requires item !in v.checkedList
    ensures CheckItem(CheckItem(v, true, item), false, item) == v
  {
    WithoutConcat(v.checkedList, [item], item);
    WithoutAbsent(v.checkedList, item);
    assert Without([item], item) == [];
  }

  /** Unchecking then checking an id that was checked moves it to the end of the list. */
  lemma UncheckThenCheck(v: View, item: string)
    ensures CheckItem(CheckItem(v, false, item), true, item).checkedList
            == Without(v.checkedList, item) + [item]
  {
  }

  // ---------------------------------------------------------------------------
  // Runs

  /** Events that cannot clear the loading or last-page flag: every one but a fetch
      completing and a reload. */
  predicate KeepsFlags(e: Event) {
    !e.Fetched? && !e.YesPressed?
  }

  /** Every page fetch in `reqs` is for page `page`. */
  predicate OnlyPage(reqs: seq<Request>, page: nat) {
    forall r :: r in reqs && r.ListPosts? ==> r.page == page
  }

  lemma StepWhileBlocked(v: View, e: Event)
    requires v.loading || v.lastPage
    requires KeepsFlags(e)
    ensures v.loading ==> Step(v, e).view.loading
    ensures v.lastPage ==> Step(v, e).view.lastPage
    ensures Step(v, e).view.currentPage == v.currentPage
    ensures OnlyPage(Step(v, e).requests, v.currentPage)
  {
  }

  /** While a fetch is running or once the last page has been seen, no event but the
      fetch completing or a reload moves the cursor or asks for another page: the loading
      flag stays set, the last-page flag stays set, and the only page fetch possible is
      the empty-search refetch of the current page. */
  lemma {:induction false} CursorFrozenWhileBlocked(v: View, es: seq<Event>)
    requires v.loading || v.lastPage
    requires forall i :: 0 <= i < |es| ==> KeepsFlags(es[i])
    ensures v.loading ==> Run(v, es).view.loading
    ensures v.lastPage ==> Run(v, es).view.lastPage
    ensures Run(v, es).view.currentPage == v.currentPage
    ensures OnlyPage(Run(v, es).requests, v.currentPage)
    decreases |es|
  {
    if es != [] {
      StepWhileBlocked(v, es[0]);
      CursorFrozenWhileBlocked(Step(v, es[0]).view, es[1..]);
    }
  }

  /** Events that leave the search text alone: every one but typing and a reload. */
  predicate KeepsSearch(e: Event) {
    !e.Typed? && !e.YesPressed?
  }

  /** While the search box holds text, the cursor never moves and no page of the listing
      is ever requested, whatever the events that leave the text alone. */
  lemma {:induction false} NoPagingWhileSearching(v: View, es: seq<Event>)
    requires v.search != ""
    requires forall i :: 0 <= i < |es| ==> KeepsSearch(es[i])
    ensures Run(v, es).view.search == v.search
    ensures Run(v, es).view.currentPage == v.currentPage
    ensures forall r :: r in Run(v, es).requests ==> !r.ListPosts?
    decreases |es|
  {
    if es != [] {
      var t := Step(v, es[0]);
      assert t.view.search == v.search && t.view.currentPage == v.currentPage;
      assert forall r :: r in t.requests ==> !r.ListPosts?;
      NoPagingWhileSearching(t.view, es[1..]);
    }
  }

  /** Every scroll event, at the bottom or not, changes nothing once the last page has
      been seen or while the search box holds text. */
  lemma {:induction false} ScrollsIgnored(v: View, bottoms: seq<bool>)
    requires v.lastPage || v.search != ""
    ensures Run(v, seq(|bottoms|, i requires 0 <= i < |bottoms| => Scrolled(bottoms[i])))
            == Transition(v, [])
  {
    var es := seq(|bottoms|, i requires 0 <= i < |bottoms| => Scrolled(bottoms[i]));
    if bottoms != [] {
      var rest := seq(|bottoms| - 1, i requires 0 <= i < |bottoms| - 1 => Scrolled(bottoms[1..][i]));
      assert es[1..] == rest;
      ScrollsIgnored(v, bottoms[1..]);
    }
  }

  // ---------------------------------------------------------------------------
  // The accumulated list

  /** Events that do not replace the list: every one but a search key, a lookup
      answer and a reload. */
  predicate Appends(e: Event) {
    !e.KeyDown? && !e.LookedUp? && !e.YesPressed?
  }

  /** The posts a page fetch completing brings; none for any other event. */
  function FetchedPage(e: Event): (r: seq<Post>) {
    if e.Fetched? then e.response.content else []
  }

  /** The posts of every page fetch completing in `es`, in arrival order. */
  function FetchedPosts(es: seq<Event>): (r: seq<Post>) {
    if es == [] then [] else FetchedPage(es[0]) + FetchedPosts(es[1..])
  }

  lemma StepAppends(v: View, e: Event)
    requires Appends(e)
    ensures Step(v, e).view.postData == v.postData + FetchedPage(e)
  {
  }

  /** While paging, the list is exactly the old list followed by every fetched page's
      posts in arrival order; so its length is the old length plus the sum of the page
      sizes, and no post already shown is lost or moved. */
  lemma {:induction false} ListAppendOnly(v: View, es: seq<Event>)
    requires forall i :: 0 <= i < |es| ==> Appends(es[i])
    ensures Run(v, es).view.postData == v.postData + FetchedPosts(es)
    decreases |es|
  {
    if es != [] {
      var w := Step(v, es[0]).view;
      assert Run(v, es).view == Run(w, es[1..]).view;
      StepAppends(v, es[0]);
      assert forall i :: 0 <= i < |es[1..]| ==> Appends(es[1..][i]);
      ListAppendOnly(w, es[1..]);
      calc {
        Run(v, es).view.postData;
        w.postData + FetchedPosts(es[1..]);
        (v.postData + FetchedPage(es[0])) + FetchedPosts(es[1..]);
        { assert forall a: seq<Post>, b: seq<Post>, c: seq<Post> :: (a + b) + c == a + (b + c); }
        v.postData + (FetchedPage(es[0]) + FetchedPosts(es[1..]));
        v.postData + FetchedPosts(es);
      }
    }
  }

  // ---------------------------------------------------------------------------
  // Scenarios

  /** Mount, a first page of five posts that is not the last, a scroll to the bottom,
      a second page of three posts that is the last, then more scrolling: two page
      fetches in all (pages 0 and 1) and eight posts shown. */
  lemma PagingScenario(page0: seq<Post>, page1: seq<Post>)
    requires |page0| == 5 && |page1| == 3
    ensures var es := [Fetched(PageResponse(page0, false)), Scrolled(true),
                       Fetched(PageResponse(page1, true)), Scrolled(true)];
            var t := Run(Mount().view, es);
            Mount().requests + t.requests == [ListPosts(0), ListPosts(1)] &&
            t.view.postData == page0 + page1 && |t.view.postData| == 8 &&
            t.view.currentPage == 1 && t.view.lastPage && !t.view.loading
  {
    var es := [Fetched(PageResponse(page0, false)), Scrolled(true),
               Fetched(PageResponse(page1, true)), Scrolled(true)];
    var v1 := CompleteFetch(Mount().view, PageResponse(page0, false));
    var t2 := Scroll(v1, true);
    var v3 := CompleteFetch(t2.view, PageResponse(page1, true));
    assert Run(v3, es[3..]) == Transition(v3, []) by {
      assert es[3..][1..] == [];
    }
    assert Run(t2.view, es[2..]) == Transition(v3, []) by {
      assert es[2..][1..] == es[3..];
    }
    assert Run(v1, es[1..]) == Transition(v3, [ListPosts(1)]) by {
      assert es[1..][1..] == es[2..];
    }
  }

  /** "Yes" with ids 3 and 7 checked deletes 3, then 7, then reloads from page 0 with
      nothing checked. */
  lemma DeleteScenario(v: View)
    requires v.checkedList == ["3", "7"]
    ensures Run(v, [YesPressed]).requests == [DeletePost("3"), DeletePost("7"), ListPosts(0)]
    ensures Run(v, [YesPressed]).view.checkedList == []
    ensures Run(v, [YesPressed]).view.currentPage == 0
  {
  }

  /** "No" keeps the list and the checked ids. */
  lemma NoKeepsSelection(v: View)
    ensures Run(v, [DeletePressed, NoPressed]).view.postData == v.postData
    ensures Run(v, [DeletePressed, NoPressed]).view.checkedList == v.checkedList
    ensures !Run(v, [DeletePressed, NoPressed]).view.showModal
    ensures Run(v, [DeletePressed, NoPressed]).requests == []
  {
  }
}
