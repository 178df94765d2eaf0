/**
 * The portfolio page's view state and its event handlers. Each field is one
 * piece of the component's state; each method is one handler and changes
 * only the fields its `modifies` clause names. The projects shown, the
 * number of pages and the stored theme are derived from the fields.
 */
module Portfolio {
  import opened Wrappers
  import opened Catalog
  import opened Pagination
  import opened Contact
  import opened Themes

  /** Below this window width the sidebar starts closed. */
  const SidebarBreakpoint: int := 768

  class App {
    const catalog: seq<Project>
    var theme: Theme
    var isSidebarOpen: bool
    var filter: string
    var selectedProject: Option<Project>
    var currentPage: int
    var name: string
    var email: string
    var message: string
    var status: string
    var isSubmitting: bool

    /** The page cursor is positive. */
    ghost predicate Valid()
      reads this
    {
      currentPage >= 1
    }

    /** The catalog under the current filter. */
    function VisibleProjects(): (r: seq<Project>)
      reads this
      ensures filter == AllTag ==> r == catalog
      ensures filter != AllTag ==> forall p :: p in r <==> p in catalog && filter in p.technologies
    {
      Filtered(catalog, filter)
    }

    /** The number of pages: the fewest pages that hold the visible list. */
    function PageCount(): (r: nat)
      reads this
      ensures r * PageLength >= |VisibleProjects()| > (r - 1) * PageLength
    {
      TotalPages(|VisibleProjects()|)
    }

    /** The projects on the current page. */
    function CurrentProjects(): (r: seq<Project>)
      reads this
      requires Valid()
      ensures |r| <= PageLength
      ensures forall p :: p in r ==> p in VisibleProjects()
      ensures r != [] <==> currentPage <= PageCount()
    {
      PageNonEmptyIff(VisibleProjects(), currentPage);
      PageOf(VisibleProjects(), currentPage)
    }

    /** The cursor names one of the pages (page 1 when there are none). */
    ghost predicate PageInRange()
      reads this
    {
      1 <= currentPage <= (if PageCount() == 0 then 1 else PageCount())
    }

    function Form(): (f: FormData)
      reads this`name, this`email, this`message
    {
      FormData(name, email, message)
    }

    /** The text kept in the stored preference for the current theme. */
    function StoredTheme(): (s: string)
      reads this
      ensures Decode(Some(s)) == theme
    {
      Encode(theme)
    }

    /** The state at start-up, given the stored theme preference (if any). */
    constructor (stored: Option<string>)
      ensures Valid() && PageInRange() && catalog == Projects()
      ensures theme == Decode(stored)
      ensures filter == AllTag && currentPage == 1 && selectedProject == None
      ensures Form() == EmptyForm && status == "" && !isSubmitting && isSidebarOpen
    {
      catalog := Projects();
      theme := Decode(stored);
      isSidebarOpen := true;
      filter := AllTag;
      selectedProject := None;
      currentPage := 1;
      name, email, message := "", "", "";
      status := "";
      isSubmitting := false;
    }

    // -------------------------------------------------------------------
    // Theme and sidebar
    // -------------------------------------------------------------------

    /** The theme button: flips the theme; the stored text follows it. */
    method ToggleTheme()
      modifies this`theme
      ensures theme == Flip(old(theme)) && theme != old(theme)
    {
      theme := Flip(theme);
    }

    method ToggleSidebar()
      modifies this`isSidebarOpen
      ensures isSidebarOpen == !old(isSidebarOpen)
    {
      isSidebarOpen := !isSidebarOpen;
    }

    /** The resize handler: the sidebar is open on wide windows and closed on narrow ones. */
    method HandleResize(width: int)
      modifies this`isSidebarOpen
      ensures isSidebarOpen <==> width >= SidebarBreakpoint
    {
      if width < SidebarBreakpoint {
        isSidebarOpen := false;
      } else {
        isSidebarOpen := true;
      }
    }

    /** A link in the sidebar: on a narrow window it also closes the sidebar. */
    method FollowSidebarLink(width: int)
      modifies this`isSidebarOpen
      ensures isSidebarOpen <==> old(isSidebarOpen) && width >= SidebarBreakpoint
    {
      if width < SidebarBreakpoint {
        isSidebarOpen := false;
      }
    }

    /** The overlay shown behind the open sidebar on narrow windows: clicking it closes the sidebar. */
    method CloseSidebar()
      modifies this`isSidebarOpen
      ensures !isSidebarOpen
    {
      isSidebarOpen := false;
    }

    // -------------------------------------------------------------------
    // Gallery: filter, pages, modal
    // -------------------------------------------------------------------

    /** Choosing a filter changes the filter only; the page cursor is not reset. */
    method SetFilter(f: string)
      modifies this`filter
      ensures filter == f && currentPage == old(currentPage)
      ensures f == AllTag ==> VisibleProjects() == catalog
      ensures f != AllTag ==> forall p :: p in VisibleProjects() <==> p in catalog && f in p.technologies
    {
      filter := f;
    }

    /** "Précédent": one page back unless already on page 1. */
    method PreviousPage()
      requires Valid()
      modifies this`currentPage
      ensures Valid()
      ensures currentPage == if old(currentPage) > 1 then old(currentPage) - 1 else old(currentPage)
      ensures old(PageInRange()) ==> PageInRange()
    {
      if currentPage > 1 {
        currentPage := currentPage - 1;
      }
    }

    /** "Suivant": one page forward unless already on the last page. */
    method NextPage()
      requires Valid()
      modifies this`currentPage
      ensures Valid()
      ensures currentPage == if old(currentPage) < PageCount() then old(currentPage) + 1 else old(currentPage)
      ensures old(PageInRange()) ==> PageInRange()
    {
      if currentPage < PageCount() {
        currentPage := currentPage + 1;
      }
    }

    /** Clicking a card opens the modal on that project. */
    method OpenProject(p: Project)
      modifies this`selectedProject
      ensures selectedProject == Some(p)
    {
      selectedProject := Some(p);
    }

    /** Closing the modal clears the selection. */
    method CloseProject()
      modifies this`selectedProject
      ensures selectedProject == None
    {
      selectedProject := None;
    }

    // -------------------------------------------------------------------
    // Contact form
    // -------------------------------------------------------------------

    method EditName(v: string)
      modifies this`name
      ensures Form() == old(Form()).(name := v)
    {
      name := v;
    }

    method EditEmail(v: string)
      modifies this`email
      ensures Form() == old(Form()).(email := v)
    {
      email := v;
    }

    method EditMessage(v: string)
      modifies this`message
      ensures Form() == old(Form()).(message := v)
    {
      message := v;
    }

    /**
     * The submit handler. A blank field stops it with the fill-in message
     * before the e-mail is looked at; a badly shaped e-mail stops it with
     * the e-mail message; either way nothing is sent (`sent == None`). A
     * form that passes both checks is sent exactly once, as it stands
     * (`sent == Some(Form())`), and the form shows that a send is pending.
     * The fields themselves never change here.
     */
    method Submit() returns (sent: Option<FormData>)
      modifies this`status, this`isSubmitting
      ensures Form() == old(Form())
      ensures Validate(Form()) == MissingField ==>
        sent == None && status == MissingFieldStatus && isSubmitting == old(isSubmitting)
      ensures Validate(Form()) == BadEmail ==>
        sent == None && status == BadEmailStatus && isSubmitting == old(isSubmitting)
      ensures Validate(Form()) == Accepted ==>
        sent == Some(Form()) && status == SendingStatus && isSubmitting
    {
      match Validate(Form())
      case MissingField =>
        status := MissingFieldStatus;
        sent := None;
      case BadEmail =>
        status := BadEmailStatus;
        sent := None;
      case Accepted =>
        isSubmitting := true;
        status := SendingStatus;
        sent := Some(Form());
    }

    /** The send resolved: success message, all fields cleared, no longer pending. */
    method SendSucceeded()
      modifies this`status, this`name, this`email, this`message, this`isSubmitting
      ensures status == SentStatus && Form() == EmptyForm && !isSubmitting
    {
      status := SentStatus;
      name, email, message := "", "", "";
      isSubmitting := false;
    }

    /**
     * The send was rejected with the service's error text (`None` when the
     * error carries none): the failure message, fields kept, no longer pending.
     */
    method SendFailed(errorText: Option<string>)
      modifies this`status, this`isSubmitting
      ensures status == FailureStatus(errorText) && !isSubmitting
      ensures Form() == old(Form())
    {
      status := FailureStatus(errorText);
      isSubmitting := false;
    }
  }

  /**
   * The shipped catalog has five projects, so under every filter there is at
   * most one page, page 1 shows the whole filtered list, and "Suivant" can
   * never move the cursor off page 1.
   */
  lemma CatalogFitsOnOnePage(filter: string)
    ensures TotalPages(|Filtered(Projects(), filter)|) <= 1
    ensures PageOf(Filtered(Projects(), filter), 1) == Filtered(Projects(), filter)
  {
  }
}
