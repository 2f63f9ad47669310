# Certification-post admin page: list and selection state

This project models the state machine of the `PostPage` page of the reward admin console
(`src/page/main/PostPage.tsx`). The page lists user-submitted certification posts. It loads
them page by page as the user scrolls, and it can filter them by a user id typed into a
search box. The user can check posts and delete the checked ones after a confirmation dialog.

The page keeps eight pieces of state: the search text, the page cursor `currentPage`, the
accumulated `postData`, the `loading` and `lastPage` flags, the `checkedList` of selected ids,
and the dialog's `showModal` flag and `modalAlert` message. The model has four modules:

- `PostPageModel` models the state as a value (`View`) and the gateway calls as values
  (`Request`: `ListPosts(page)`, `LookupPosts(search)`, `DeletePost(id)`). It has one
  transition function per handler. A transition returns the new state together with the
  calls the handler makes, in order. `Step` and `Run` replay a sequence of `Event`s.
- `PostPageRuns` holds the properties that span several events: the cursor stays frozen,
  the list only grows while paging, and check and uncheck cancel out.
- `PostPageIds` shows that the page can show the same posts twice on its own, and proves
  that every post is shown at most once on the runs that avoid that.
- `PostPageComponent` holds the class `PostPage`, with the same fields and one method per
  handler. Each method updates the fields in place. Each is proved to leave the object in
  the state its transition function gives and to make the same calls. `YesClickHandler`
  keeps the source's loop of awaited deletes.

An awaited gateway call splits a handler in two. The first step issues the call: for
example `FetchData` sets `loading` and returns the page it asks for. The completion step
(`FetchDone`, `LookupDone`) takes the gateway's answer as a parameter and folds it into the
state. A change of `currentPage` runs the page's fetch effect (lines 51-53). The model folds
that effect into the scroll step that moves the cursor. Mounting the page, and reloading it
after a delete, is the initial state followed by the first half of a fetch (`Mount`).

Two behaviours of the code are easy to miss:

- Submitting an empty search empties the list and refetches the page at the current cursor.
  It does not reset the cursor to 0 (lines 78-80). This refetch can happen even after the
  last page has been seen.
- The checked ids are a list, not a set. Checking appends without a duplicate check.
  Unchecking removes every copy of the id.

## Model

| member | source | states |
|---|---|---|
| PostPageModel.Without | src/page/main/PostPage.tsx:103 | the id is gone from the result; every other id keeps its number of occurrences; the list never grows |
| PostPageModel.DeleteRequests | src/page/main/PostPage.tsx:124-128 | exactly one delete call per checked id, at the same position as the id |
| PostPageModel.BeginFetch | src/page/main/PostPage.tsx:41-43 | a fetch sets `loading` and asks for the page at the cursor; nothing else changes |
| PostPageModel.Mount | src/page/main/PostPage.tsx:51-53 | mounting, and reloading at line 129, gives the initial state with `loading` set and page 0 requested |
| PostPageModel.CompleteFetch | src/page/main/PostPage.tsx:44-48 | the old posts stay as the prefix in their order and the page's posts follow; the length is the sum; `lastPage` becomes the response's `last`; `loading` is cleared; nothing else changes |
| PostPageModel.Scroll | src/page/main/PostPage.tsx:51-62 | the cursor moves iff the bottom is reached, `lastPage` and `loading` are false and the search is empty; it then moves by exactly 1 and the new page is requested; otherwise no state changes and no call is made |
| PostPageModel.InputChange | src/page/main/PostPage.tsx:93-95 | typing sets the search text and changes nothing else |
| PostPageModel.EnterKeyDown | src/page/main/PostPage.tsx:69-91 | keys other than Enter do nothing; Enter with text only issues the lookup; Enter with an empty box empties the list, sets `loading` and refetches the current page without resetting the cursor |
| PostPageModel.LookupDone | src/page/main/PostPage.tsx:72-77 | the lookup's content replaces the list, or the empty list when no data came back; the cursor and `lastPage` are untouched |
| PostPageModel.CheckItem | src/page/main/PostPage.tsx:97-107 | checking appends the id at the end; unchecking removes every occurrence and keeps the other ids' counts; nothing else changes |
| PostPageModel.DeleteButton | src/page/main/PostPage.tsx:108-113 | with no id checked nothing changes; otherwise the dialog opens with the delete warning |
| PostPageModel.CloseModal | src/page/main/PostPage.tsx:114-116 | "No" hides the dialog and changes nothing else |
| PostPageModel.ConfirmYes | src/page/main/PostPage.tsx:118-131 | with nothing checked it only hides the dialog; otherwise one delete per checked id in order, then the reloaded page's single fetch of page 0, ending in the initial state with `loading` set |
| PostPageRuns.WithoutConcat | src/page/main/PostPage.tsx:103 | unchecking keeps the remaining ids in their order (the filter distributes over concatenation) |
| PostPageRuns.WithoutAbsent | src/page/main/PostPage.tsx:103 | unchecking an id that is not checked leaves the list unchanged |
| PostPageRuns.CheckThenUncheck | src/page/main/PostPage.tsx:99-103 | checking and then unchecking an id that was not checked restores the state |
| PostPageRuns.UncheckThenCheck | src/page/main/PostPage.tsx:99-103 | unchecking and then checking an id moves it to the end of the list |
| PostPageRuns.StepWhileBlocked | src/page/main/PostPage.tsx:41-62 | one event other than a fetch completing or a reload keeps `loading` and `lastPage` set and does not move the cursor |
| PostPageRuns.CursorFrozenWhileBlocked | src/page/main/PostPage.tsx:41-67 | while a fetch runs, or once the last page has been seen, no run of events without a fetch completing or a reload moves the cursor or asks for any page but the current one; `loading` stays true until its result is folded in |
| PostPageRuns.NoPagingWhileSearching | src/page/main/PostPage.tsx:56-80 | while the search box holds text, no run of events that leaves it alone moves the cursor or requests any page of the listing |
| PostPageRuns.ScrollsIgnored | src/page/main/PostPage.tsx:56-62 | once `lastPage` is set or while a search is typed, any number of scroll events leaves the state unchanged and makes no call |
| PostPageRuns.ListAppendOnly | src/page/main/PostPage.tsx:41-53 | over events that do not replace the list, the list is the old list followed by every fetched page's posts in arrival order |
| PostPageIds.ServedRunShowsIdsOnce | src/page/main/PostPage.tsx:41-80 | against a backend whose pages share no id, on every run where each page answer answers the open fetch and no Enter on an empty box comes while a fetch is open (and with no lookup answer or reload), no id is shown twice, and `loading` is set exactly while a page fetch is unanswered |
| PostPageIds.MountedRunShowsIdsOnce | src/page/main/PostPage.tsx:41-80 | the same from mount on: every id is shown at most once |
| PostPageIds.EmptySearchDuringFetchShowsPageTwice | src/page/main/PostPage.tsx:41-80 | Enter on the empty box while the mount's fetch is open requests page 0 twice; both answers are appended, so page 0 is shown twice; the first answer clears `loading` while the second fetch is still open |
| PostPageRuns.PagingScenario | src/page/main/PostPage.tsx:41-62 | mount, page 0 of five posts, a scroll, and page 1 of three posts marked last: exactly pages 0 and 1 are fetched; further scrolling fetches nothing; eight posts are shown |
| PostPageRuns.DeleteScenario | src/page/main/PostPage.tsx:118-131 | "Yes" with ids 3 and 7 checked deletes 3, then 7, then fetches page 0 once, with nothing checked |
| PostPageRuns.NoKeepsSelection | src/page/main/PostPage.tsx:108-116 | opening the dialog and answering "No" keeps the list and the checked ids, hides the dialog and makes no call |
| PostPageComponent.PostPage.constructor | src/page/main/PostPage.tsx:31-39 | the state hooks start at their initial values |
| PostPageComponent.PostPage.Reload | src/page/main/PostPage.tsx:129 | the reload puts every field back to its initial value |
| PostPageComponent.PostPage.FetchData | src/page/main/PostPage.tsx:41-43 | the object moves as `BeginFetch` says and returns the page it asks for |
| PostPageComponent.PostPage.FetchDone | src/page/main/PostPage.tsx:44-48 | the object moves as `CompleteFetch` says |
| PostPageComponent.PostPage.HandleScroll | src/page/main/PostPage.tsx:55-64 | the object moves and calls as `Scroll` says |
| PostPageComponent.PostPage.InputChange | src/page/main/PostPage.tsx:93-95 | the object moves as `InputChange` says |
| PostPageComponent.PostPage.EnterKeyDown | src/page/main/PostPage.tsx:85-91 | the object moves and calls as `EnterKeyDown` says |
| PostPageComponent.PostPage.LookupDone | src/page/main/PostPage.tsx:72-77 | the object moves as `LookupDone` says |
| PostPageComponent.PostPage.OnCheckedItem | src/page/main/PostPage.tsx:97-107 | the object moves as `CheckItem` says |
| PostPageComponent.PostPage.DeleteButtonHandler | src/page/main/PostPage.tsx:108-113 | the object moves as `DeleteButton` says |
| PostPageComponent.PostPage.CloseModalHandler | src/page/main/PostPage.tsx:114-116 | the object moves as `CloseModal` says |
| PostPageComponent.PostPage.YesClickHandler | src/page/main/PostPage.tsx:118-131 | the loop of awaited deletes calls `DeletePost` once per checked id in order, then reloads and fetches; the object and the calls are those of `ConfirmYes` |
| PostPageComponent.DeleteSession | src/page/main/PostPage.tsx:97-131 | checking one id, pressing delete and confirming makes exactly two calls: the delete of that id, then the fetch of page 0 |

## Left out

- `src/common/api/user.tsx` is not part of this model. It is an HTTP GET wrapper with no state logic.
- The gateway functions `post`, `postOne` and `postDelete` come from `src/common/api/post`, which is not part of this model. Their calls are `Request` values, and their answers are parameters of the completion steps. What they do on failure is unknown. A missing response would make the handler throw with `loading` still set. This is not modelled. The unused `code` field of the responses is not modelled either.
- Scroll geometry (`scrollTop`, `innerHeight`, `offsetHeight`) becomes the boolean `atBottom`. Registering and removing the listener is not modelled.
- The listener is re-registered only when `lastPage` or `search` changes, so it can read a stale `loading`. The model reads the current value.
- Out-of-order responses and React's batched state updates are not modelled. Every handler step is atomic, and steps run one after another.
- `parseInt` on the search text is not modelled. `LookupPosts` carries the raw text.
- The `moment` date formatting, the JSX markup, the `Modal` and `Header` components, the stylesheet and the `console.log` calls are not modelled.
- `window.location.reload()` is modelled as a reset to the initial state followed by the mount's page fetch.
- The checkbox's displayed state comes from `Post.isChecked`, which no handler updates. This is rendering and is not modelled.
- PostPageModel.ConfirmYes: the checked list is cleared after each awaited delete. Only the final, reloaded state is recorded, because the reload overwrites everything. `PostPage.YesClickHandler` does perform the clearing inside its loop.
- PostPageIds.ServedRunShowsIdsOnce: it assumes the backend's pages share no id, which the page never checks. It also assumes runs without a lookup answer or a reload, because a lookup's posts can overlap a page that is fetched afterwards.

## Findings

| source | as written | input that shows it | evidently intended | confidence | as-written member | corrected member |
|---|---|---|---|---|---|---|
| src/page/main/PostPage.tsx:78-80 | Enter on an empty search box calls `fetchData` even while a page fetch is still open. Both answers are appended at line 47. The first answer clears `loading` at line 48 while the second fetch is still open. | mount (page 0 requested), Enter on the empty box before the answer arrives, then page 0's answer twice | every post is shown once, and `loading` stays set while any page fetch is unanswered | medium, not executed | PostPageIds.EmptySearchDuringFetchShowsPageTwice | PostPageIds.ServedRunShowsIdsOnce |
