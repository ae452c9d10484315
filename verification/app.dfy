/**
 * The application shell: whether the product form or the list is shown, the auth modal and
 * which of its two views is open, the authentication flag and user read from storage, and
 * the key that forces the list to reload.
 */
module App {
  import opened Wrappers
  import Api
  import Js

  class AppView {
    var showForm: bool
    var refreshKey: int
    var isAuthenticated: bool
    var showAuthModal: bool
    var showLogin: bool
    var user: Option<Api.User>

    /** No user is held while signed out. */
    ghost predicate Valid()
      reads this
    {
      !isAuthenticated ==> user.None?
    }

    constructor ()
      ensures Valid()
      ensures !showForm && refreshKey == 0 && !isAuthenticated && !showAuthModal && showLogin && user.None?
    {
      showForm := false;
      refreshKey := 0;
      isAuthenticated := false;
      showAuthModal := false;
      showLogin := true;
      user := None;
    }

    /**
     * What `checkAuth()` leaves behind, given the user held before it ran: the flag follows the
     * stored token; the read throws exactly when signed in with a stored user that does not
     * parse, and then the user stays `before`; otherwise the user is the stored one when signed
     * in and none when signed out.
     */
    ghost predicate AuthFollows(storage: Api.AuthStorage, threw: bool, before: Option<Api.User>)
      reads this, storage
    {
      && isAuthenticated == storage.IsAuthenticated()
      && (threw <==> storage.IsAuthenticated() && storage.GetUserData().Unparsable?)
      && (!threw ==> user == (if isAuthenticated && storage.GetUserData().StoredUser?
                              then Some(storage.GetUserData().user) else None))
      && (threw ==> user == before)
    }

    /**
     * `checkAuth()`: the flag follows the stored token; the user is read from storage when
     * signed in and cleared otherwise. A stored user that does not parse makes the read throw
     * after the flag is set, leaving the user as it was.
     */
    method CheckAuth(storage: Api.AuthStorage) returns (threw: bool)
      requires Valid()
      modifies this`isAuthenticated, this`user
      ensures Valid()
      ensures AuthFollows(storage, threw, old(user))
    {
      var authenticated := storage.IsAuthenticated();
      isAuthenticated := authenticated;
      threw := false;
      if authenticated {
        match storage.GetUserData() {
          case NoUser => user := None;
          case StoredUser(u) => user := Some(u);
          case Unparsable => threw := true;
        }
      } else {
        user := None;
      }
    }

    /** `handleLoginSuccess`: re-reads the session and closes the modal; the form stays as it was. */
    method HandleLoginSuccess(storage: Api.AuthStorage) returns (threw: bool)
      requires Valid()
      modifies this`isAuthenticated, this`user, this`showAuthModal
      ensures Valid()
      ensures AuthFollows(storage, threw, old(user))
      ensures !threw ==> !showAuthModal
      ensures threw ==> showAuthModal == old(showAuthModal)
    {
      threw := CheckAuth(storage);
      if !threw {
        showAuthModal := false;
      }
    }

    /** `handleRegisterSuccess`: the same steps as after a login. */
    method HandleRegisterSuccess(storage: Api.AuthStorage) returns (threw: bool)
      requires Valid()
      modifies this`isAuthenticated, this`user, this`showAuthModal
      ensures Valid()
      ensures AuthFollows(storage, threw, old(user))
      ensures !threw ==> !showAuthModal
      ensures threw ==> showAuthModal == old(showAuthModal)
    {
      threw := CheckAuth(storage);
      if !threw {
        showAuthModal := false;
      }
    }

    /**
     * `handleLogout`: calls logout (a failure is only logged), then re-reads the session and
     * hides the form. After a confirmed logout, or a 401, the shell is signed out.
     */
    method HandleLogout(storage: Api.AuthStorage, outcome: Result<Api.Body, Js.ApiError>) returns (threw: bool)
      requires Valid()
      modifies this`isAuthenticated, this`user, this`showForm, storage
      ensures Valid()
      ensures storage.items == Api.AfterLogout(old(storage.items), outcome)
      ensures AuthFollows(storage, threw, old(user))
      ensures !threw ==> !showForm
      ensures threw ==> showForm == old(showForm)
      ensures (outcome.Ok? || Js.Status(outcome.error) == Some(401)) ==>
                !isAuthenticated && user.None? && !showForm && !threw
    {
      var _ := storage.Logout(outcome);
      threw := CheckAuth(storage);
      if !threw {
        showForm := false;
      }
    }

    /**
     * The Add Product button: hides the form when it is shown; otherwise opens the login
     * modal when signed out, or shows the form when signed in.
     */
    method HandleAddProductClick()
      modifies this`showForm, this`showAuthModal, this`showLogin
      ensures old(showForm) ==> !showForm && showAuthModal == old(showAuthModal) && showLogin == old(showLogin)
      ensures !old(showForm) && !isAuthenticated ==> !showForm && showAuthModal && showLogin
      ensures !old(showForm) && isAuthenticated ==>
                showForm && showAuthModal == old(showAuthModal) && showLogin == old(showLogin)
    {
      if showForm {
        showForm := false;
        return;
      }
      if !isAuthenticated {
        showAuthModal := true;
        showLogin := true;
      } else {
        showForm := true;
      }
    }

    /** `handleProductAdded`: the list key moves on by one, which reloads the list, and the form closes. */
    method HandleProductAdded()
      modifies this`refreshKey, this`showForm
      ensures refreshKey == old(refreshKey) + 1 && !showForm
    {
      refreshKey := refreshKey + 1;
      showForm := false;
    }

    /** `handleCloseAuthModal`: closes the modal and the form. */
    method HandleCloseAuthModal()
      modifies this`showAuthModal, this`showForm
      ensures !showAuthModal && !showForm
    {
      showAuthModal := false;
      showForm := false;
    }

    /** The header's Login button, and the form's `onAuthRequired`: open the modal on its login view. */
    method OpenLogin()
      modifies this`showAuthModal, this`showLogin
      ensures showAuthModal && showLogin
    {
      showAuthModal := true;
      showLogin := true;
    }

    /** The modal's switch links: `true` shows the login view, `false` the registration view. */
    method SwitchAuthView(toLogin: bool)
      modifies this`showLogin
      ensures showLogin == toLogin
    {
      showLogin := toLogin;
    }

    /** The form's Cancel button. */
    method CancelForm()
      modifies this`showForm
      ensures !showForm
    {
      showForm := false;
    }
  }
}
