/** The administration page (`admin.js`): switching between its three
    views, the users table with its protected super administrator, and
    the live filter over that table's rows. */
module Admin {
  import opened Wrappers
  import opened Text

  /** The account no one can delete from the users table. */
  const AdminEmail := "amuhamed@helpers-tech.com"

  /** One `.view-section` element: its id and its `hidden`/`active`
      classes. */
  datatype Section = Section(id: string, hidden: bool, active: bool)

  /** One `<tr>` of `#usersTable`: the text of its first cell, if it has
      one, and whether it is displayed. */
  datatype TableRow = TableRow(firstCell: Option<string>, shown: bool)

  /** What `loadUsers` shows for one user. */
  datatype UserView = UserView(email: string, username: string, role: string, deleteButton: bool)

  /** The data loader the page starts with. */
  datatype Loader = LoadDashboard | LoadUsers | NoLoader

  /** A user as `/api/users` returns it; "" for a missing field. */
  datatype User = User(id: string, email: string, username: string, role: string)

  /** `switchView`'s normalisation: only the three known views survive. */
  function NormalizeView(viewId: string): (v: string)
    ensures v in {"dashboard", "users", "settings"}
    ensures v == viewId <==> viewId in {"dashboard", "users", "settings"}
    ensures v != viewId ==> v == "dashboard"
  {
    if viewId in {"dashboard", "users", "settings"} then viewId else "dashboard"
  }

  /** The view the page asks for on load: the `view` query parameter,
      "dashboard" when it is missing or empty. */
  function RequestedView(param: Option<string>): (v: string)
    ensures v != ""
    ensures param.None? || param == Some("") ==> v == "dashboard"
  {
    if param.Some? && param.value != "" then param.value else "dashboard"
  }

  /** The element id a view is shown in. */
  function TargetId(view: string): (id: string)
    ensures view == "users" ==> id == "usersSection"
    ensures view != "users" ==> id == view
  {
    if view == "users" then "usersSection" else view
  }

  /** `document.getElementById(id)` over the sections: the first section
      with that id. */
  function FirstWithId(s: seq<Section>, id: string): (r: Option<nat>)
    ensures r.Some? ==> r.value < |s| && s[r.value].id == id
    ensures r.Some? ==> forall j :: 0 <= j < r.value ==> s[j].id != id
    ensures r.None? ==> forall j :: 0 <= j < |s| ==> s[j].id != id
    decreases |s|
  {
    if s == [] then None
    else if s[0].id == id then Some(0)
    else match FirstWithId(s[1..], id)
      case None => None
      case Some(k) => Some(k + 1)
  }

  /** The sections after `switchView` has shown `target`: every section
      hidden and inactive except the first one with that id. */
  function AfterSwitch(s: seq<Section>, target: string): (r: seq<Section>)
    ensures |r| == |s|
    ensures forall i :: 0 <= i < |s| ==> r[i].id == s[i].id
  {
    seq(|s|, i requires 0 <= i < |s| =>
      s[i].(hidden := FirstWithId(s, target) != Some(i), active := FirstWithId(s, target) == Some(i)))
  }

  /** At most one section is visible after a switch, it is active, and it
      carries the target id; when a section has that id, one is
      visible. */
  lemma OneSectionVisible(s: seq<Section>, target: string)
    ensures forall i :: 0 <= i < |s| ==> (!AfterSwitch(s, target)[i].hidden <==> AfterSwitch(s, target)[i].active)
    ensures forall i :: 0 <= i < |s| && !AfterSwitch(s, target)[i].hidden ==> s[i].id == target
    ensures forall i, j :: 0 <= i < j < |s| ==> AfterSwitch(s, target)[i].hidden || AfterSwitch(s, target)[j].hidden
    ensures (exists i :: 0 <= i < |s| && s[i].id == target) ==>
              exists i :: 0 <= i < |s| && !AfterSwitch(s, target)[i].hidden
  {
    if exists i :: 0 <= i < |s| && s[i].id == target {
      var k := FirstWithId(s, target).value;
      assert !AfterSwitch(s, target)[k].hidden;
    }
  }

  /** Switching twice to the same view leaves the sections as the first
      switch did. */
  lemma SwitchIdempotent(s: seq<Section>, target: string)
    ensures AfterSwitch(AfterSwitch(s, target), target) == AfterSwitch(s, target)
  {
    SameIdsSameFirst(s, AfterSwitch(s, target), target);
  }

  lemma {:induction false} SameIdsSameFirst(s: seq<Section>, t: seq<Section>, id: string)
    requires |s| == |t| && forall i :: 0 <= i < |s| ==> s[i].id == t[i].id
    ensures FirstWithId(s, id) == FirstWithId(t, id)
    decreases |s|
  {
    if s != [] && s[0].id != id {
      SameIdsSameFirst(s[1..], t[1..], id);
    }
  }

  /** The loader the page starts: it looks at the requested view before
      normalisation, so an unknown view shows the dashboard but loads
      nothing. */
  function StartLoader(param: Option<string>): (l: Loader)
    ensures l == LoadDashboard <==> RequestedView(param) == "dashboard"
    ensures l == LoadUsers <==> RequestedView(param) == "users"
  {
    var raw := RequestedView(param);
    if raw == "dashboard" then LoadDashboard else if raw == "users" then LoadUsers else NoLoader
  }

  /** An unknown view is shown as the dashboard whose figures are never
      fetched. */
  lemma UnknownViewLoadsNothing(param: Option<string>)
    requires param.Some? && param.value !in {"", "dashboard", "users", "settings"}
    ensures NormalizeView(RequestedView(param)) == "dashboard"
    ensures StartLoader(param) == NoLoader
  {
  }

  /** The super administrator. */
  predicate IsSuper(u: User)
  {
    u.email == AdminEmail
  }

  /** One row of the users table: the username or "-", and a Delete
      button for everyone but the super administrator. */
  function UserViewOf(u: User): (v: UserView)
    ensures v.deleteButton <==> !IsSuper(u)
    ensures v.email == u.email && v.role == u.role
    ensures v.username == (if u.username != "" then u.username else "-")
  {
    UserView(u.email, if u.username != "" then u.username else "-", u.role, u.email != AdminEmail)
  }

  /** The rows of the users table, in the order the users came. */
  function UsersTable(users: seq<User>): (r: seq<UserView>)
    ensures |r| == |users|
    ensures forall i :: 0 <= i < |users| ==> r[i] == UserViewOf(users[i])
  {
    seq(|users|, i requires 0 <= i < |users| => UserViewOf(users[i]))
  }

  /** However the list of users is made up, the super administrator's row
      has no Delete button. */
  lemma SuperAdminProtected(users: seq<User>)
    ensures forall i :: 0 <= i < |users| && users[i].email == AdminEmail ==> !UsersTable(users)[i].deleteButton
    ensures forall i :: 0 <= i < |users| && users[i].email != AdminEmail ==> UsersTable(users)[i].deleteButton
  {
  }

  /** `filterUsers` on one row other than the first: a row with a first
      cell is displayed exactly when that cell's text, lower-cased,
      contains the lower-cased filter; a row without one is untouched. */
  function FilteredRow(r: TableRow, filter: string): (f: TableRow)
    ensures f.firstCell == r.firstCell
    ensures r.firstCell.None? ==> f == r
    ensures r.firstCell.Some? ==> (f.shown <==> Contains(Lower(r.firstCell.value), Lower(filter)))
  {
    match r.firstCell
    case None => r
    case Some(text) => r.(shown := Contains(Lower(text), Lower(filter)))
  }

  /** Filtering a row again with the same text changes nothing; the empty
      filter shows every row that has a first cell. */
  lemma FilterRowFacts(r: TableRow, filter: string)
    ensures FilteredRow(FilteredRow(r, filter), filter) == FilteredRow(r, filter)
    ensures r.firstCell.Some? ==> FilteredRow(r, "").shown
  {
    if r.firstCell.Some? {
      ContainsEmpty(Lower(r.firstCell.value));
    }
  }

  /** The administration page: its sections, the rows of the users table,
      the `view` parameter of the address bar and the addresses pushed
      onto the history. */
  class AdminPage {
    const sections: array<Section>
    const rows: array<TableRow>
    var viewParam: Option<string>
    var pushed: seq<string>

    constructor(sections: array<Section>, rows: array<TableRow>, viewParam: Option<string>)
      ensures this.sections == sections && this.rows == rows
      ensures this.viewParam == viewParam && pushed == []
    {
      this.sections := sections;
      this.rows := rows;
      this.viewParam := viewParam;
      pushed := [];
    }

    /** `switchView(viewId)`: every section is hidden, the target is shown,
        and the `view` parameter is pushed onto the history only when it
        differs from the normalised view. */
    method SwitchView(viewId: string)
      modifies this, sections
      ensures sections[..] == AfterSwitch(old(sections[..]), TargetId(NormalizeView(viewId)))
      ensures viewParam == Some(NormalizeView(viewId))
      ensures old(viewParam) == Some(NormalizeView(viewId)) ==> pushed == old(pushed)
      ensures old(viewParam) != Some(NormalizeView(viewId)) ==> pushed == old(pushed) + [NormalizeView(viewId)]
    {
      var view := NormalizeView(viewId);
      var target := TargetId(view);
      ghost var before := sections[..];
      var found := FirstWithId(sections[..], target);
      var i := 0;
      while i < sections.Length
        invariant 0 <= i <= sections.Length
        invariant forall j :: 0 <= j < i ==> sections[j] == before[j].(hidden := true, active := false)
        invariant forall j :: i <= j < sections.Length ==> sections[j] == before[j]
        invariant viewParam == old(viewParam) && pushed == old(pushed)
      {
        sections[i] := sections[i].(hidden := true, active := false);
        i := i + 1;
      }
      if found.Some? {
        sections[found.value] := sections[found.value].(hidden := false, active := true);
      }
      assert sections[..] == AfterSwitch(before, target);
      if viewParam != Some(view) {
        viewParam := Some(view);
        pushed := pushed + [view];
      }
    }

    /** The page's start: the requested view is switched to, and the
        loader of the requested (not the normalised) view is started. */
    method Start() returns (loader: Loader)
      modifies this, sections
      ensures loader == StartLoader(old(viewParam))
      ensures sections[..] == AfterSwitch(old(sections[..]), TargetId(NormalizeView(RequestedView(old(viewParam)))))
      ensures viewParam == Some(NormalizeView(RequestedView(old(viewParam))))
      ensures old(viewParam) == Some(NormalizeView(RequestedView(old(viewParam)))) ==> pushed == old(pushed)
      ensures old(viewParam) != Some(NormalizeView(RequestedView(old(viewParam)))) ==>
        pushed == old(pushed) + [NormalizeView(RequestedView(old(viewParam)))]
    {
      var raw := RequestedView(viewParam);
      SwitchView(raw);
      loader := if raw == "dashboard" then LoadDashboard else if raw == "users" then LoadUsers else NoLoader;
    }

    /** `filterUsers` with the text of `#userSearch`: every row but the
        header row is filtered in place. */
    method FilterUsers(filter: string)
      modifies rows
      ensures rows.Length > 0 ==> rows[0] == old(rows[0])
      ensures forall i :: 1 <= i < rows.Length ==> rows[i] == FilteredRow(old(rows[i]), filter)
    {
      var needle := Lower(filter);
      var i := 1;
      while i < rows.Length
        invariant 1 <= i || rows.Length == 0
        invariant i <= rows.Length || rows.Length == 0
        invariant forall j :: 0 <= j < rows.Length && (j == 0 || j >= i) ==> rows[j] == old(rows[j])
        invariant forall j :: 1 <= j < i && j < rows.Length ==> rows[j] == FilteredRow(old(rows[j]), filter)
      {
        var cell := rows[i].firstCell;
        if cell.Some? {
          rows[i] := rows[i].(shown := Contains(Lower(cell.value), needle));
        }
        i := i + 1;
      }
    }
  }
}
