/** The page component itself: an object whose handlers update its state in place.
    Every handler is proved to leave the object in the state the matching transition
    of PostPageModel gives, and to make the gateway calls that transition lists. */
module PostPageComponent {
  import opened PostPageModel

  class PostPage {
    var search: string
    var currentPage: nat
    var postData: seq<Post>
    var loading: bool
    var checkedList: seq<string>
    var lastPage: bool
    var showModal: bool
    var modalAlert: string

    /** The object's state as a value. */
    function Snapshot(): View
      reads this
    {
      View(search, currentPage, postData, loading, checkedList, lastPage, showModal, modalAlert)
    }

    /** The state hooks' initial values. */
    constructor ()
      ensures Snapshot() == Initial
    {
      search, currentPage, postData, loading := "", 0, [], false;
      checkedList, lastPage, showModal, modalAlert := [], false, false, "";
    }

    /** A full reload of the page: every state hook back to its initial value. */
    method Reload()
      modifies this
      ensures Snapshot() == Initial
    {
      search, currentPage, postData, loading := "", 0, [], false;
      checkedList, lastPage, showModal, modalAlert := [], false, false, "";
    }

    /** The first half of fetchData: set the loading flag and ask for the page at the
        cursor. It runs on mount and whenever the cursor changes. */
    method FetchData() returns (page: nat)
      modifies this
      ensures Transition(Snapshot(), [ListPosts(page)]) == BeginFetch(old(Snapshot()))
    {
      loading := true;
      page := currentPage;
    }

    /** The second half of fetchData: fold the page that came back into the state. */
    method FetchDone(res: PageResponse)
      modifies this
      ensures Snapshot() == CompleteFetch(old(Snapshot()), res)
    {
      lastPage := res.last;
      postData := postData + res.content;
      loading := false;
    }

    /** The scroll listener; moving the cursor runs the fetch effect. */
    method HandleScroll(atBottom: bool) returns (requests: seq<Request>)
      modifies this
      ensures Transition(Snapshot(), requests) == Scroll(old(Snapshot()), atBottom)
    {
      requests := [];
      if atBottom {
        if !lastPage && !loading && search == "" {
          currentPage := currentPage + 1;
          var page := FetchData();
          requests := [ListPosts(page)];
        }
      }
    }

    method InputChange(text: string)
      modifies this
      ensures Snapshot() == PostPageModel.InputChange(old(Snapshot()), text)
    {
      search := text;
    }

    /** The search box's key handler, with the first half of searchData. */
    method EnterKeyDown(key: string) returns (requests: seq<Request>)
      modifies this
      ensures Transition(Snapshot(), requests) == PostPageModel.EnterKeyDown(old(Snapshot()), key)
    {
      requests := [];
      if key == "Enter" {
        if search != "" {
          requests := [LookupPosts(search)];
        } else {
          postData := [];
          var page := FetchData();
          requests := [ListPosts(page)];
        }
      }
    }

    /** The second half of searchData: the lookup's answer replaces the list. */
    method LookupDone(data: Option<seq<Post>>)
      modifies this
      ensures Snapshot() == PostPageModel.LookupDone(old(Snapshot()), data)
    {
      if data.Some? {
        postData := data.value;
      } else {
        postData := [];
      }
    }

    method OnCheckedItem(checked: bool, item: string)
      modifies this
      ensures Snapshot() == CheckItem(old(Snapshot()), checked, item)
    {
      if checked {
        checkedList := checkedList + [item];
      } else {
        checkedList := Without(checkedList, item);
      }
    }

    method DeleteButtonHandler()
      modifies this
      ensures Snapshot() == DeleteButton(old(Snapshot()))
    {
      if |checkedList| != 0 {
        modalAlert := DeleteAlert;
        showModal := true;
      }
    }

    method CloseModalHandler()
      modifies this
      ensures Snapshot() == CloseModal(old(Snapshot()))
    {
      showModal := false;
    }

    /** "Yes" in the confirmation dialog: the deletes one after the other, each awaited,
        clearing the checked list after each; then the reload, which mounts the page again. */
    method YesClickHandler() returns (requests: seq<Request>)
      modifies this
      ensures Transition(Snapshot(), requests) == ConfirmYes(old(Snapshot()))
    {
      showModal := false;
      requests := [];
      if |checkedList| != 0 {
        var ids := checkedList;
        var i := 0;
        while i < |ids|
          invariant 0 <= i <= |ids|
          invariant |requests| == i
          invariant forall k :: 0 <= k < i ==> requests[k] == DeletePost(ids[k])
          invariant i > 0 ==> checkedList == []
        {
          requests := requests + [DeletePost(ids[i])];
          checkedList := [];
          i := i + 1;
        }
        assert requests == DeleteRequests(ids);
        Reload();
        var page := FetchData();
        requests := requests + [ListPosts(page)];
      }
    }
  }

  /** A session as the page's user would drive it: one item checked, the delete
      button pressed and the delete confirmed. */
  method DeleteSession(id: string) returns (requests: seq<Request>)
    ensures requests == [DeletePost(id), ListPosts(0)]
  {
    var page := new PostPage();
    page.OnCheckedItem(true, id);
    assert page.checkedList == [id];
    page.DeleteButtonHandler();
    assert page.showModal && page.checkedList == [id];
    requests := page.YesClickHandler();
  }
}
