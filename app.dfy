/** Client-side routing (src/App.jsx): the path-to-view switch, `navigate`,
    and the back/forward handler, over the browser's session history. */
module App {

  datatype View = HomepageView | LoginView | SignupView

  /** `renderPage()`: the view shown for a path. */
  function RenderPage(path: string): (v: View)
    ensures v == LoginView <==> path == "/login"
    ensures v == SignupView <==> path == "/signup"
    ensures v == HomepageView <==> path != "/login" && path != "/signup"
  {
    if path == "/login" then LoginView
    else if path == "/signup" then SignupView
    else HomepageView
  }

  /** The router keeps `currentPage` and the browser keeps its session
      history: a list of entries and the index of the current one. */
  class Router {
    /** React state `currentPage`. */
    var currentPage: string
    /** The browser's session history entries. */
    var entries: seq<string>
    /** The index of the entry the browser shows. */
    var index: nat

    /** The shown page agrees with the browser's location. */
    ghost predicate Valid()
      reads this
    {
      index < |entries| && currentPage == entries[index]
    }

    /** `useState(window.location.pathname)` on load. */
    constructor (pathname: string)
      ensures Valid()
      ensures currentPage == pathname && entries == [pathname] && index == 0
    {
      currentPage := pathname;
      entries := [pathname];
      index := 0;
    }

    /** `window.location.pathname` */
    function Pathname(): string
      reads this
      requires Valid()
    {
      entries[index]
    }

    /** `navigate(path)`: `pushState` (which drops the forward entries) and
        then `setCurrentPage(path)`, for any path and with no check. */
    method Navigate(path: string)
      requires Valid()
      modifies this
      ensures Valid()
      ensures entries == old(entries[..index + 1]) + [path]
      ensures index == old(index) + 1
      ensures currentPage == path
    {
      entries := entries[..index + 1] + [path];
      index := index + 1;
      currentPage := path;
    }

    /** `window.onpopstate`: shows the browser's current path and pushes
        nothing. */
    method OnPopState()
      requires index < |entries|
      modifies this
      ensures Valid()
      ensures entries == old(entries) && index == old(index)
      ensures currentPage == entries[index]
    {
      currentPage := entries[index];
    }

    /** The browser's back button: when there is an earlier entry, the
        browser moves to it and fires `popstate`. */
    method Back()
      requires Valid()
      modifies this
      ensures Valid()
      ensures entries == old(entries)
      ensures index == if old(index) > 0 then old(index) - 1 else old(index)
      ensures currentPage == if old(index) > 0 then entries[index] else old(currentPage)
    {
      if index > 0 {
        index := index - 1;
        OnPopState();
      }
    }

    /** The browser's forward button. */
    method Forward()
      requires Valid()
      modifies this
      ensures Valid()
      ensures entries == old(entries)
      ensures index == if old(index) + 1 < |entries| then old(index) + 1 else old(index)
      ensures currentPage == if old(index) + 1 < |entries| then entries[index] else old(currentPage)
    {
      if index + 1 < |entries| {
        index := index + 1;
        OnPopState();
      }
    }
  }

  /** Going back after `navigate` shows the page that was shown before it. */
  method NavigateThenBack(router: Router, path: string)
    requires router.Valid()
    modifies router
    ensures router.Valid()
    ensures router.currentPage == old(router.currentPage)
    ensures router.index == old(router.index)
  {
    router.Navigate(path);
    router.Back();
  }
}
