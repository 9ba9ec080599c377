/** View navigation of the application shell (src/App.tsx): two state cells,
    the current view and the selected user, six handlers that set them, and
    the render switch that falls back to the user list when a view needs a
    user and none is selected.

    The transitions are pure functions on `Navigation` values so that lemmas
    can speak about sequences of them; the `App` class holds the two cells
    and its methods apply one transition each. */
module App {
  import opened Wrappers
  import opened Types

  /** `ViewType`. */
  datatype View = Users | UserDetails | CreateUser | EditUser

  /** What `renderCurrentView` returns: one of the views' components, with
      the user it is given, or `null`. */
  datatype Screen =
    | UserListScreen
    | UserDetailsScreen(user: User)
    | UserFormScreen(editing: Option<User>)
    | NoScreen

  datatype Navigation = Navigation(view: View, selected: Option<User>)

  function Initial(): (r: Navigation)
    ensures Consistent(r) && Render(r).0 == UserListScreen
  {
    Navigation(Users, None)
  }

  /** The views that show the selected user have one. */
  predicate Consistent(n: Navigation) {
    n.view == UserDetails || n.view == EditUser ==> n.selected.Some?
  }

  /** `handleUserSelect(user)`. */
  function Select(n: Navigation, user: User): (r: Navigation)
    ensures Consistent(r) && Render(r).0 == UserDetailsScreen(user)
  {
    Navigation(UserDetails, Some(user))
  }

  /** `handleCreateUser()`. */
  function Create(n: Navigation): (r: Navigation)
    ensures Consistent(r) && Render(r).0 == UserFormScreen(None) && r.selected == None
  {
    Navigation(CreateUser, None)
  }

  /** `handleEditUser(user)`. */
  function Edit(n: Navigation, user: User): (r: Navigation)
    ensures Consistent(r) && Render(r).0 == UserFormScreen(Some(user))
  {
    Navigation(EditUser, Some(user))
  }

  /** `handleBackToUsers()`. */
  function Back(n: Navigation): (r: Navigation)
    ensures Consistent(r) && Render(r).0 == UserListScreen && r.selected == None
  {
    Navigation(Users, None)
  }

  /** `handleUserFormSuccess(user)`. */
  function FormSuccess(n: Navigation, user: User): (r: Navigation)
    ensures Consistent(r) && Render(r).0 == UserDetailsScreen(user)
  {
    Navigation(UserDetails, Some(user))
  }

  /** `handleUserFormCancel()`: back to the details of the selected user, or
      to the list when there is none; the selection is kept. */
  function FormCancel(n: Navigation): (r: Navigation)
    ensures Consistent(r) && r.selected == n.selected
    ensures Render(r).0 == if n.selected.Some? then UserDetailsScreen(n.selected.value) else UserListScreen
  {
    if n.selected.Some? then n.(view := UserDetails) else n.(view := Users)
  }

  /** `renderCurrentView()`: the screen for the current view, and the state
      after the render, which differs only when a view that needs a user
      finds none and switches to the list instead. */
  function Render(n: Navigation): (r: (Screen, Navigation))
    ensures Consistent(r.1)
    ensures Consistent(n) ==> r.1 == n && r.0 != NoScreen
    ensures !Consistent(n) ==> r == (NoScreen, n.(view := Users))
  {
    match n.view
    case Users => (UserListScreen, n)
    case UserDetails =>
      if n.selected.None? then (NoScreen, n.(view := Users))
      else (UserDetailsScreen(n.selected.value), n)
    case CreateUser => (UserFormScreen(None), n)
    case EditUser =>
      if n.selected.None? then (NoScreen, n.(view := Users))
      else (UserFormScreen(n.selected), n)
  }

  class App {
    var currentView: View
    var selectedUser: Option<User>

    function State(): Navigation
      reads this
    {
      Navigation(currentView, selectedUser)
    }

    constructor ()
      ensures State() == Initial()
    {
      currentView := Users;
      selectedUser := None;
    }

    method HandleUserSelect(user: User)
      modifies this
      ensures State() == Select(old(State()), user)
    {
      selectedUser := Some(user);
      currentView := UserDetails;
    }

    method HandleCreateUser()
      modifies this
      ensures State() == Create(old(State()))
    {
      selectedUser := None;
      currentView := CreateUser;
    }

    method HandleEditUser(user: User)
      modifies this
      ensures State() == Edit(old(State()), user)
    {
      selectedUser := Some(user);
      currentView := EditUser;
    }

    method HandleBackToUsers()
      modifies this
      ensures State() == Back(old(State()))
    {
      selectedUser := None;
      currentView := Users;
    }

    method HandleUserFormSuccess(user: User)
      modifies this
      ensures State() == FormSuccess(old(State()), user)
    {
      selectedUser := Some(user);
      currentView := UserDetails;
    }

    method HandleUserFormCancel()
      modifies this
      ensures State() == FormCancel(old(State()))
    {
      if selectedUser.Some? {
        currentView := UserDetails;
      } else {
        currentView := Users;
      }
    }

    method RenderCurrentView() returns (screen: Screen)
      modifies this
      ensures (screen, State()) == Render(old(State()))
    {
      match currentView {
        case Users =>
          screen := UserListScreen;
        case UserDetails =>
          if selectedUser.None? {
            currentView := Users;
            screen := NoScreen;
          } else {
            screen := UserDetailsScreen(selectedUser.value);
          }
        case CreateUser =>
          screen := UserFormScreen(None);
        case EditUser =>
          if selectedUser.None? {
            currentView := Users;
            screen := NoScreen;
          } else {
            screen := UserFormScreen(selectedUser);
          }
      }
    }
  }

  /** The application starts on the list, and every handler and every render
      leaves a state whose view has the user it needs. */
  lemma HandlersKeepConsistent(n: Navigation, user: User)
    ensures Consistent(Initial())
    ensures Consistent(Select(n, user)) && Consistent(Create(n)) && Consistent(Edit(n, user))
    ensures Consistent(Back(n)) && Consistent(FormSuccess(n, user))
    ensures Consistent(FormCancel(n))
    ensures Consistent(Render(n).1)
  {
  }

  /** Selecting a user, or saving the form, shows that user's details. */
  lemma SelectShowsDetails(n: Navigation, user: User)
    ensures Render(Select(n, user)).0 == UserDetailsScreen(user)
    ensures Render(FormSuccess(n, user)).0 == UserDetailsScreen(user)
  {
  }

  /** Creating shows an empty form, editing a form for the user; going back
      shows the list with nothing selected. */
  lemma CreateEditBackScreens(n: Navigation, user: User)
    ensures Render(Create(n)).0 == UserFormScreen(None) && Create(n).selected == None
    ensures Render(Edit(n, user)).0 == UserFormScreen(Some(user))
    ensures Render(Back(n)).0 == UserListScreen && Back(n).selected == None
  {
  }

  /** Cancelling an edit returns to the user's details; cancelling a
      creation returns to the list. */
  lemma CancelReturnsToOrigin(n: Navigation, user: User)
    ensures FormCancel(Edit(n, user)) == Navigation(UserDetails, Some(user))
    ensures FormCancel(Create(n)) == Navigation(Users, None)
  {
  }

  /** In a consistent state a render changes nothing and shows a screen. */
  lemma ConsistentRenderKeepsState(n: Navigation)
    requires Consistent(n)
    ensures Render(n).1 == n && Render(n).0 != NoScreen
  {
  }

  /** A view that needs a user, reached with none selected, renders nothing
      and switches to the list, which the next render shows. */
  lemma FallbackShowsListNext(n: Navigation)
    requires (n.view == UserDetails || n.view == EditUser) && n.selected.None?
    ensures Render(n) == (NoScreen, Navigation(Users, None))
    ensures Render(Render(n).1).0 == UserListScreen
  {
  }
}
