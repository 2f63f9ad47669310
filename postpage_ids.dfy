/** Whether a post can be shown twice. The page appends every page answer it receives
    (PostPageModel.CompleteFetch) without looking at the ids, so showing each post once
    rests on which answers arrive. This module shows a run in which the page itself asks
    for the same page twice and shows it twice, and proves that every post is shown at
    most once on runs that avoid it, against a backend whose pages share no id. */
module PostPageIds {
  import opened PostPageModel

  /** Post ids are pairwise distinct. */
  predicate DistinctIds(posts: seq<Post>) {
    forall i, j :: 0 <= i < j < |posts| ==> posts[i].certificationId != posts[j].certificationId
  }

  /** No id of `a` is an id of `b`. */
  predicate IdsDisjoint(a: seq<Post>, b: seq<Post>) {
    forall i, j :: 0 <= i < |a| && 0 <= j < |b| ==> a[i].certificationId != b[j].certificationId
  }

  /** A backend that answers page `p` with `pages(p)`, whose pages repeat no id and share
      no id with one another. */
  ghost predicate DisjointPages(pages: nat -> seq<Post>) {
    (forall p :: DistinctIds(pages(p))) &&
    (forall p, q :: p != q ==> IdsDisjoint(pages(p), pages(q)))
  }

  predicate DistinctPages(ps: seq<nat>) {
    forall i, j :: 0 <= i < j < |ps| ==> ps[i] != ps[j]
  }

  /** The posts of the pages `ps`, in that order. */
  function PagesPosts(pages: nat -> seq<Post>, ps: seq<nat>): (r: seq<Post>)
    decreases |ps|
  {
    if ps == [] then [] else PagesPosts(pages, ps[..|ps| - 1]) + pages(ps[|ps| - 1])
  }

  /** The pages asked for in `reqs`, in order. */
  function PagesRequested(reqs: seq<Request>): (r: seq<nat>)
  {
    if reqs == [] then []
    else (if reqs[0].ListPosts? then [reqs[0].page] else []) + PagesRequested(reqs[1..])
  }

  lemma AppendDistinct(a: seq<Post>, b: seq<Post>)
    requires DistinctIds(a) && DistinctIds(b) && IdsDisjoint(a, b)
    ensures DistinctIds(a + b)
  {
    var n := |a|;
    forall i, j | 0 <= i < j < |a + b|
      ensures (a + b)[i].certificationId != (a + b)[j].certificationId
    {
      if j < n {
        assert (a + b)[i] == a[i] && (a + b)[j] == a[j];
      } else if i < n {
        assert (a + b)[i] == a[i] && (a + b)[j] == b[j - n];
      } else {
        assert (a + b)[i] == b[i - n] && (a + b)[j] == b[j - n];
      }
    }
  }

  lemma AppendDisjoint(a: seq<Post>, b: seq<Post>, c: seq<Post>)
    requires IdsDisjoint(a, c) && IdsDisjoint(b, c)
    ensures IdsDisjoint(a + b, c)
  {
    forall i, j | 0 <= i < |a + b| && 0 <= j < |c|
      ensures (a + b)[i].certificationId != c[j].certificationId
    {
      if i >= |a| {
        assert (a + b)[i] == b[i - |a|];
      }
    }
  }

  /** Distinct pages of a backend with disjoint pages show every id once, and share no
      id with any other page. */
  lemma {:induction false} PagesPostsDistinct(pages: nat -> seq<Post>, ps: seq<nat>)
    requires DisjointPages(pages)
    requires DistinctPages(ps)
    ensures DistinctIds(PagesPosts(pages, ps))
    ensures forall q :: q !in ps ==> IdsDisjoint(PagesPosts(pages, ps), pages(q))
    decreases |ps|
  {
    if ps != [] {
      var init, last := ps[..|ps| - 1], ps[|ps| - 1];
      assert last !in init by {
        forall i | 0 <= i < |init| ensures init[i] != last {
          assert init[i] == ps[i];
        }
      }
      PagesPostsDistinct(pages, init);
      AppendDistinct(PagesPosts(pages, init), pages(last));
      forall q | q !in ps
        ensures IdsDisjoint(PagesPosts(pages, ps), pages(q))
      {
        assert q !in init && q != last;
        AppendDisjoint(PagesPosts(pages, init), pages(last), pages(q));
      }
    } else {
      forall q ensures IdsDisjoint(PagesPosts(pages, ps), pages(q)) {
      }
    }
  }

  /** The page's fetch bookkeeping against the backend `pages`: the list is the pages
      `shown`, in order; `open` holds the page fetch still unanswered, if any; the loading
      flag is set exactly while a fetch is open; no page is both shown twice, or shown and
      open; and no page beyond the cursor has been asked for. */
  predicate Tracks(pages: nat -> seq<Post>, v: View, shown: seq<nat>, open: seq<nat>) {
    v.postData == PagesPosts(pages, shown) &&
    |open| <= 1 &&
    (v.loading <==> open != []) &&
    (forall i :: 0 <= i < |shown + open| ==> (shown + open)[i] <= v.currentPage) &&
    DistinctPages(shown + open)
  }

  /** `e` may come next, with `open` the page fetch still unanswered: a page answer
      answers the open fetch with that page's posts; no Enter on an empty search box comes
      while a fetch is open; and there is no lookup answer and no reload. */
  predicate Served(pages: nat -> seq<Post>, v: View, open: seq<nat>, e: Event) {
    match e
    case Fetched(res) => open != [] && res.content == pages(open[0])
    case KeyDown(key) => !(key == "Enter" && v.search == "" && v.loading)
    case LookedUp(_) => false
    case YesPressed => false
    case _ => true
  }

  /** The page fetches still unanswered after `e`. */
  function NextOpen(open: seq<nat>, e: Event, reqs: seq<Request>): (r: seq<nat>) {
    (if e.Fetched? && open != [] then open[1..] else open) + PagesRequested(reqs)
  }

  /** The pages the list shows after `e`. */
  function NextShown(shown: seq<nat>, open: seq<nat>, v: View, e: Event): (r: seq<nat>) {
    if e.Fetched? && open != [] then shown + [open[0]]
    else if e.KeyDown? && e.key == "Enter" && v.search == "" then []
    else shown
  }

  /** Every event of `es` may come when it does, starting from `v` with `open` unanswered. */
  predicate ServedRun(pages: nat -> seq<Post>, v: View, open: seq<nat>, es: seq<Event>)
    decreases |es|
  {
    es == [] ||
    (Served(pages, v, open, es[0]) &&
     var t := Step(v, es[0]);
     ServedRun(pages, t.view, NextOpen(open, es[0], t.requests), es[1..]))
  }

  /** The page fetches still unanswered at the end of `es`. */
  function OpenAfter(v: View, open: seq<nat>, es: seq<Event>): (r: seq<nat>)
    decreases |es|
  {
    if es == [] then open
    else
      var t := Step(v, es[0]);
      OpenAfter(t.view, NextOpen(open, es[0], t.requests), es[1..])
  }

  lemma PagesPostsSnoc(pages: nat -> seq<Post>, shown: seq<nat>, p: nat)
    ensures PagesPosts(pages, shown + [p]) == PagesPosts(pages, shown) + pages(p)
  {
    assert (shown + [p])[..|shown|] == shown;
  }

  lemma ScrollTracks(pages: nat -> seq<Post>, v: View, shown: seq<nat>, open: seq<nat>, atBottom: bool)
    requires Tracks(pages, v, shown, open)
    ensures var t := Scroll(v, atBottom);
            Tracks(pages, t.view, shown, open + PagesRequested(t.requests))
  {
    var t := Scroll(v, atBottom);
    if t.view.currentPage != v.currentPage {
      assert open == [] && shown + open == shown;
      assert PagesRequested(t.requests) == [v.currentPage + 1];
    } else {
      assert PagesRequested(t.requests) == [] && open + [] == open;
    }
  }

  lemma FetchedTracks(pages: nat -> seq<Post>, v: View, shown: seq<nat>, open: seq<nat>, res: PageResponse)
    requires Tracks(pages, v, shown, open)
    requires open != [] && res.content == pages(open[0])
    ensures Tracks(pages, CompleteFetch(v, res), shown + [open[0]], open[1..])
  {
    PagesPostsSnoc(pages, shown, open[0]);
    assert open[1..] == [] && shown + [open[0]] + [] == shown + open;
  }

  lemma KeyTracks(pages: nat -> seq<Post>, v: View, shown: seq<nat>, open: seq<nat>, key: string)
    requires Tracks(pages, v, shown, open)
    requires !(key == "Enter" && v.search == "" && v.loading)
    ensures var t := EnterKeyDown(v, key);
            Tracks(pages, t.view, if key == "Enter" && v.search == "" then [] else shown,
                   open + PagesRequested(t.requests))
  {
    var t := EnterKeyDown(v, key);
    if key == "Enter" && v.search == "" {
      assert open == [] && PagesRequested(t.requests) == [v.currentPage];
      assert PagesPosts(pages, []) == [];
    } else if key == "Enter" {
      assert PagesRequested(t.requests) == [] && open + [] == open;
    } else {
      assert PagesRequested(t.requests) == [] && open + [] == open;
    }
  }

  /** Events that make no call and leave the list, the flags and the cursor alone keep
      the bookkeeping. */
  lemma QuietTracks(pages: nat -> seq<Post>, v: View, w: View, shown: seq<nat>, open: seq<nat>)
    requires Tracks(pages, v, shown, open)
    requires w.postData == v.postData && w.loading == v.loading && w.currentPage == v.currentPage
    ensures Tracks(pages, w, shown, open + PagesRequested([]))
  {
    assert PagesRequested([]) == [] && open + [] == open;
  }

  lemma StepTracks(pages: nat -> seq<Post>, v: View, shown: seq<nat>, open: seq<nat>, e: Event)
    requires Tracks(pages, v, shown, open)
    requires Served(pages, v, open, e)
    ensures Tracks(pages, Step(v, e).view, NextShown(shown, open, v, e),
                   NextOpen(open, e, Step(v, e).requests))
  {
    match e
    case Scrolled(atBottom) => ScrollTracks(pages, v, shown, open, atBottom);
    case Fetched(res) =>
      FetchedTracks(pages, v, shown, open, res);
      assert PagesRequested([]) == [] && open[1..] + [] == open[1..];
    case KeyDown(key) => KeyTracks(pages, v, shown, open, key);
    case Typed(text) => QuietTracks(pages, v, InputChange(v, text), shown, open);
    case Toggled(checked, item) => QuietTracks(pages, v, CheckItem(v, checked, item), shown, open);
    case DeletePressed => QuietTracks(pages, v, DeleteButton(v), shown, open);
    case NoPressed => QuietTracks(pages, v, CloseModal(v), shown, open);
  }

  /** On every run against a backend with disjoint pages in which every page answer
      answers the page's open fetch, no Enter on an empty search box comes while a fetch
      is open, and there is no lookup answer or reload: every id is shown at most once,
      and the loading flag is set exactly while a page fetch is unanswered. */
  lemma {:induction false} ServedRunShowsIdsOnce(pages: nat -> seq<Post>, v: View, shown: seq<nat>,
                                                 open: seq<nat>, es: seq<Event>)
    requires DisjointPages(pages)
    requires Tracks(pages, v, shown, open)
    requires ServedRun(pages, v, open, es)
    ensures DistinctIds(Run(v, es).view.postData)
    ensures Run(v, es).view.loading <==> OpenAfter(v, open, es) != []
    ensures |OpenAfter(v, open, es)| <= 1
    decreases |es|
  {
    if es == [] {
      assert DistinctPages(shown) by {
        forall i, j | 0 <= i < j < |shown| ensures shown[i] != shown[j] {
          assert shown[i] == (shown + open)[i] && shown[j] == (shown + open)[j];
        }
      }
      PagesPostsDistinct(pages, shown);
    } else {
      var t := Step(v, es[0]);
      StepTracks(pages, v, shown, open, es[0]);
      ServedRunShowsIdsOnce(pages, t.view, NextShown(shown, open, v, es[0]),
                            NextOpen(open, es[0], t.requests), es[1..]);
    }
  }

  /** From mount on, on every such run every id is shown at most once. */
  lemma MountedRunShowsIdsOnce(pages: nat -> seq<Post>, es: seq<Event>)
    requires DisjointPages(pages)
    requires ServedRun(pages, Mount().view, [0], es)
    ensures DistinctIds(Run(Mount().view, es).view.postData)
    ensures Run(Mount().view, es).view.loading <==> OpenAfter(Mount().view, [0], es) != []
  {
    assert PagesPosts(pages, []) == [];
    assert Tracks(pages, Mount().view, [], [0]);
    ServedRunShowsIdsOnce(pages, Mount().view, [], [0], es);
  }

  /** As written, Enter on an empty search box while the mount's fetch is still open asks
      for page 0 a second time; both answers are appended, so page 0's posts are shown
      twice. The first answer already clears the loading flag while the second fetch is
      still open. Such a run is not served. */
  lemma EmptySearchDuringFetchShowsPageTwice(pages: nat -> seq<Post>, p: seq<Post>)
    requires p == pages(0) && |p| > 0
    ensures var es := [KeyDown("Enter"), Fetched(PageResponse(p, false)), Fetched(PageResponse(p, false))];
            var t := Run(Mount().view, es);
            Mount().requests + t.requests == [ListPosts(0), ListPosts(0)] &&
            t.view.postData == p + p &&
            !DistinctIds(t.view.postData) &&
            !ServedRun(pages, Mount().view, [0], es)
    ensures !Run(Mount().view, [KeyDown("Enter"), Fetched(PageResponse(p, false))]).view.loading
  {
    var es := [KeyDown("Enter"), Fetched(PageResponse(p, false)), Fetched(PageResponse(p, false))];
    var v0 := Mount().view;
    var t1 := EnterKeyDown(v0, "Enter");
    var v2 := CompleteFetch(t1.view, PageResponse(p, false));
    var v3 := CompleteFetch(v2, PageResponse(p, false));
    assert Run(v2, es[2..]) == Transition(v3, []) by {
      assert es[2..][1..] == [];
    }
    assert Run(t1.view, es[1..]) == Transition(v3, []) by {
      assert es[1..][1..] == es[2..];
    }
    assert Run(v0, es) == Transition(v3, [ListPosts(0)]);
    assert v3.postData == p + p;
    assert (p + p)[0] == (p + p)[|p|];
    assert !Served(pages, v0, [0], es[0]);
    var es2 := [KeyDown("Enter"), Fetched(PageResponse(p, false))];
    assert Run(t1.view, es2[1..]) == Transition(v2, []) by {
      assert es2[1..][1..] == [];
    }
  }
}
