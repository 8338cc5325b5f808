/** The navigation bar's highlighting rule. */
module Header {

  const StaffListHref := "/staff"
  const AddStaffHref := "/staff/create"

  datatype NavItem = NavItem(href: string, title: string)

  const NavItems := [NavItem(StaffListHref, "Staff List"), NavItem(AddStaffHref, "Add Staff")]

  /**
   * `isActive`: the staff list link is active only on `/staff` itself;
   * any other link is active on every path that starts with its `href`.
   */
  function IsActive(pathname: string, href: string): (active: bool)
    ensures href == StaffListHref ==> (active <==> pathname == StaffListHref)
    ensures href != StaffListHref ==> (active <==> |href| <= |pathname| && pathname[..|href|] == href)
  {
    if href == StaffListHref then pathname == StaffListHref else href <= pathname
  }

  /** The labels of the highlighted navigation items, in menu order. */
  function ActiveLabels(pathname: string): (labels: seq<string>)
    ensures forall t :: t in labels <==> exists item :: item in NavItems && item.title == t && IsActive(pathname, item.href)
  {
    var staff := if IsActive(pathname, StaffListHref) then ["Staff List"] else [];
    var add := if IsActive(pathname, AddStaffHref) then ["Add Staff"] else [];
    staff + add
  }

  /** On the create page only "Add Staff" is highlighted. */
  lemma OnlyAddStaffOnCreatePage()
    ensures ActiveLabels("/staff/create") == ["Add Staff"]
  {
    assert AddStaffHref <= "/staff/create";
  }

  /** On the list page only "Staff List" is highlighted. */
  lemma OnlyStaffListOnListPage()
    ensures ActiveLabels("/staff") == ["Staff List"]
  {
    assert !(AddStaffHref <= "/staff");
  }

  /**
   * On an edit page `/staff/<id>/edit` the list link is never highlighted,
   * and "Add Staff" is highlighted exactly when the id starts with
   * `create`: the prefix test does not stop at a path segment.
   */
  lemma EditPageHighlighting(id: string)
    ensures !IsActive("/staff/" + id + "/edit", StaffListHref)
    ensures IsActive("/staff/" + id + "/edit", AddStaffHref) <==> "create" <= id
  {
    var path := "/staff/" + id + "/edit";
    assert |path| > |StaffListHref|;
    assert path[..7] == "/staff/";
    if "create" <= id {
      assert path[..|AddStaffHref|] == "/staff/" + id[..6];
    } else if |id| >= 6 {
      assert path[7..13] == id[..6];
      assert AddStaffHref[7..13] == "create" != path[7..13];
    } else {
      assert path[7 + |id|] == '/';
      assert AddStaffHref[7 + |id|] != '/';
    }
  }

  /** Consequently, on the edit page of an id that does not start with `create` nothing is highlighted. */
  lemma NothingHighlightedOnEditPage(id: string)
    requires !("create" <= id)
    ensures ActiveLabels("/staff/" + id + "/edit") == []
  {
    EditPageHighlighting(id);
  }
}
