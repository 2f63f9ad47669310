/** The list and selection state of the certification-post admin page, as values.

    The page keeps eight pieces of state (the search text, the page cursor, the
    accumulated posts, the loading and last-page flags, the checked ids, the
    confirmation dialog's visibility and its message). Each event handler of the
    page is one transition function below: it gives the new state together with
    the calls it makes to the admin API gateway, in the order it makes them.
    A gateway call that the page awaits is split in two: the handler that issues
    the call, and a completion event that folds the gateway's answer in. */
module PostPageModel {

  datatype Option<T> = None | Some(value: T)

  /** One certification post as the admin API delivers it. */
  datatype Post = Post(
    certificationId: int,
    placeName: string,
    description: string,
    address: string,
    photoUrl: string,
    commentCount: int,
    userId: int,
    userName: string,
    userProfile: string,
    likeCount: int,
    registDt: string,
    isChecked: bool)

  /** The `data` part of one page of the post listing. */
  datatype PageResponse = PageResponse(content: seq<Post>, last: bool)

  /** A call the page makes to the admin API gateway. */
  datatype Request =
    | ListPosts(page: nat)         // one page of the listing
    | LookupPosts(search: string)  // the posts of the user id typed in the search box
    | DeletePost(id: string)       // delete one certification post

  /** The page's state. */
  datatype View = View(
    search: string,
    currentPage: nat,
    postData: seq<Post>,
    loading: bool,
    checkedList: seq<string>,
    lastPage: bool,
    showModal: bool,
    modalAlert: string)

  /** The state after a step and the gateway calls the step made, in order. */
  datatype Transition = Transition(view: View, requests: seq<Request>)

  /** The message the confirmation dialog shows before a batch delete. */
  const DeleteAlert: string := "삭제시 되돌릴 수 없습니다.\n정말로 삭제하시겠습니까?"

  /** The state of a freshly loaded page, before its first fetch. */
  const Initial: View := View("", 0, [], false, [], false, false, "")

  // ---------------------------------------------------------------------------
  // The list transforms inside the state setters

  /** `list` with every occurrence of `x` dropped (the unchecking filter). */
  function Without<T(==)>(list: seq<T>, x: T): (r: seq<T>)
    ensures x !in r
    ensures multiset(r) == multiset(list)[x := 0]
    ensures |r| <= |list|
  {
    if list == [] then []
    else
      assert list == [list[0]] + list[1..];
      (if list[0] == x then [] else [list[0]]) + Without(list[1..], x)
  }

  /** The delete calls for `ids`, one per id, in the same order. */
  function DeleteRequests(ids: seq<string>): (r: seq<Request>)
    ensures |r| == |ids|
    ensures forall i :: 0 <= i < |ids| ==> r[i] == DeletePost(ids[i])
  {
    if ids == [] then [] else [DeletePost(ids[0])] + DeleteRequests(ids[1..])
  }

  // ---------------------------------------------------------------------------
  // One transition per handler

  /** Start of a page fetch: the page is loading, and the page at the cursor is requested. */
  function BeginFetch(v: View): (t: Transition)
    ensures t.view.loading
    ensures t.requests == [ListPosts(v.currentPage)]
    ensures t.view.(loading := v.loading) == v
  {
    Transition(v.(loading := true), [ListPosts(v.currentPage)])
  }

  /** Mounting the page (and reloading it): the initial state, then the fetch effect
      asks for the first page. */
  function Mount(): (t: Transition)
    ensures t.view == Initial.(loading := true)
    ensures t.requests == [ListPosts(0)]
  {
    BeginFetch(Initial)
  }

  /** End of a page fetch: the page's posts come after the ones already shown. */
  function CompleteFetch(v: View, res: PageResponse): (w: View)
    ensures |w.postData| == |v.postData| + |res.content|
    ensures w.postData[..|v.postData|] == v.postData
    ensures w.postData[|v.postData|..] == res.content
    ensures w.lastPage == res.last
    ensures !w.loading
    ensures w.(postData := v.postData, lastPage := v.lastPage, loading := v.loading) == v
  {
    v.(lastPage := res.last, postData := v.postData + res.content, loading := false)
  }

  /** A scroll event. The cursor moves on only when the bottom was reached, the last
      page has not been seen, no fetch is running and the search box is empty; moving
      the cursor starts the fetch of the new page. */
  function Scroll(v: View, atBottom: bool): (t: Transition)
    ensures t.view.currentPage != v.currentPage
        <==> atBottom && !v.lastPage && !v.loading && v.search == ""
    ensures t.view.currentPage != v.currentPage ==>
              t.view.currentPage == v.currentPage + 1 &&
              t.view.loading &&
              t.requests == [ListPosts(v.currentPage + 1)] &&
              t.view.(currentPage := v.currentPage, loading := v.loading) == v
    ensures t.view.currentPage == v.currentPage ==> t == Transition(v, [])
  {
    if atBottom && !v.lastPage && !v.loading && v.search == "" then
      BeginFetch(v.(currentPage := v.currentPage + 1))
    else
      Transition(v, [])
  }

  /** Typing in the search box. */
  function InputChange(v: View, text: string): (w: View)
    ensures w.search == text
    ensures w.(search := v.search) == v
  {
    v.(search := text)
  }

  /** A key pressed in the search box. Enter with a search text looks the text up and
      changes nothing yet; Enter with an empty box empties the list and fetches the page
      at the cursor, which it does not reset. */
  function EnterKeyDown(v: View, key: string): (t: Transition)
    ensures key != "Enter" ==> t == Transition(v, [])
    ensures key == "Enter" && v.search != "" ==>
              t == Transition(v, [LookupPosts(v.search)])
    ensures key == "Enter" && v.search == "" ==>
              t.view.postData == [] &&
              t.view.loading &&
              t.view.currentPage == v.currentPage &&
              t.requests == [ListPosts(v.currentPage)] &&
              t.view.(postData := v.postData, loading := v.loading) == v
  {
    if key != "Enter" then Transition(v, [])
    else if v.search != "" then Transition(v, [LookupPosts(v.search)])
    else BeginFetch(v.(postData := []))
  }

  /** The lookup's answer replaces the list; no data means an empty list. */
  function LookupDone(v: View, data: Option<seq<Post>>): (w: View)
    ensures data.Some? ==> w.postData == data.value
    ensures data.None? ==> w.postData == []
    ensures w.currentPage == v.currentPage && w.lastPage == v.lastPage
    ensures w.(postData := v.postData) == v
  {
    match data
    case Some(content) => v.(postData := content)
    case None => v.(postData := [])
  }

  /** A checkbox toggled: checking appends the id, unchecking drops every copy of it. */
  function CheckItem(v: View, checked: bool, item: string): (w: View)
    ensures checked ==> w.checkedList == v.checkedList + [item]
    ensures !checked ==> item !in w.checkedList
    ensures !checked ==> multiset(w.checkedList) == multiset(v.checkedList)[item := 0]
    ensures w.(checkedList := v.checkedList) == v
  {
    if checked then v.(checkedList := v.checkedList + [item])
    else v.(checkedList := Without(v.checkedList, item))
  }

  /** The delete button opens the confirmation only when some id is checked. */
  function DeleteButton(v: View): (w: View)
    ensures v.checkedList == [] ==> w == v
    ensures v.checkedList != [] ==> w.showModal && w.modalAlert == DeleteAlert
    ensures w.(showModal := v.showModal, modalAlert := v.modalAlert) == v
  {
    if |v.checkedList| != 0 then v.(modalAlert := DeleteAlert, showModal := true) else v
  }

  /** "No" in the confirmation dialog only hides it. */
  function CloseModal(v: View): (w: View)
    ensures !w.showModal
    ensures w.(showModal := v.showModal) == v
  {
    v.(showModal := false)
  }

  /** "Yes" in the confirmation dialog. With ids checked: one delete per id, in the
      order they were checked, then the page reloads and fetches its first page. */
  function ConfirmYes(v: View): (t: Transition)
    ensures v.checkedList == [] ==> t == Transition(v.(showModal := false), [])
    ensures v.checkedList != [] ==>
              t.view == Initial.(loading := true) &&
              |t.requests| == |v.checkedList| + 1 &&
              (forall i :: 0 <= i < |v.checkedList| ==> t.requests[i] == DeletePost(v.checkedList[i])) &&
              t.requests[|v.checkedList|] == ListPosts(0)
  {
    if |v.checkedList| == 0 then Transition(v.(showModal := false), [])
    else Transition(Mount().view, DeleteRequests(v.checkedList) + Mount().requests)
  }

  // ---------------------------------------------------------------------------
  // Runs of events

  /** What can happen to the page once it is mounted. */
  datatype Event =
    | Scrolled(atBottom: bool)
    | Fetched(response: PageResponse)
    | Typed(text: string)
    | KeyDown(key: string)
    | LookedUp(data: Option<seq<Post>>)
    | Toggled(checked: bool, item: string)
    | DeletePressed
    | NoPressed
    | YesPressed

  function Step(v: View, e: Event): (t: Transition) {
    match e
    case Scrolled(atBottom) => Scroll(v, atBottom)
    case Fetched(res) => Transition(CompleteFetch(v, res), [])
    case Typed(text) => Transition(InputChange(v, text), [])
    case KeyDown(key) => EnterKeyDown(v, key)
    case LookedUp(data) => Transition(LookupDone(v, data), [])
    case Toggled(checked, item) => Transition(CheckItem(v, checked, item), [])
    case DeletePressed => Transition(DeleteButton(v), [])
    case NoPressed => Transition(CloseModal(v), [])
    case YesPressed => ConfirmYes(v)
  }

  /** The state after `es`, one event after the other, and every gateway call made on the way. */
  function Run(v: View, es: seq<Event>): (t: Transition)
    decreases |es|
  {
    if es == [] then Transition(v, [])
    else
      var t := Step(v, es[0]);
      var u := Run(t.view, es[1..]);
      Transition(u.view, t.requests + u.requests)
  }
}
