/**
 * `AuthManager`: the session state. It follows the authentication service's state changes and keeps
 * at most one live snapshot listener on the signed-in user's `users/{uid}` profile document.
 */
module Session {

  import opened Wrappers
  import opened Documents
  import opened Models

  /** The authentication service's current user: a uid and, possibly, an email. */
  datatype AuthUser = AuthUser(uid: string, email: Option<string>)

  /** What a profile listener delivers: an error, no (usable) document, or a document's id and data. */
  datatype ProfileSnapshot = SnapshotError | NoDocument | DocumentData(documentID: string, data: Fields)

  const DefaultUsername: string := "User"

  /**
   * The user an existing profile document describes. A missing or ill-typed username is "User";
   * the email falls back from the document to the signed-in user's email, then to "".
   */
  function ProfileUser(documentID: string, data: Fields, authEmail: Option<string>): (u: User)
    ensures u.id == documentID
    ensures forall name :: Field(data, "username") == Some(StringValue(name)) ==> u.username == name
    ensures u.username == "User" || Field(data, "username") == Some(StringValue(u.username))
    ensures forall url :: Field(data, "profileImageURL") == Some(StringValue(url)) ==> u.profileImageURL == Some(url)
    ensures u.profileImageURL.Some? <==> (exists url :: Field(data, "profileImageURL") == Some(StringValue(url)))
  {
    User(
      documentID,
      AsString(Field(data, "username")).GetOr(DefaultUsername),
      AsString(Field(data, "email")).GetOr(authEmail.GetOr("")),
      AsString(Field(data, "profileImageURL")))
  }

  /** The stand-in user for a uid whose profile document does not exist. */
  function PlaceholderUser(userId: string, authEmail: Option<string>): (u: User)
    ensures u.id == userId && u.username == "User" && u.profileImageURL.None?
    ensures u.email == authEmail.GetOr("")
  {
    User(userId, DefaultUsername, authEmail.GetOr(""), None)
  }

  /** The email of a profile user: the document's, else the signed-in user's, else empty. */
  lemma ProfileEmailFallback(documentID: string, data: Fields, authEmail: Option<string>)
    ensures AsString(Field(data, "email")).Some? ==> ProfileUser(documentID, data, authEmail).email == data["email"].s
    ensures AsString(Field(data, "email")).None? && authEmail.Some? ==> ProfileUser(documentID, data, authEmail).email == authEmail.value
    ensures AsString(Field(data, "email")).None? && authEmail.None? ==> ProfileUser(documentID, data, authEmail).email == ""
  {
  }

  /** The `users/{id}` document data a user is stored as; an absent image URL is left out. */
  function ProfileFields(u: User): (data: Fields)
    ensures data.Keys == if u.profileImageURL.Some? then {"username", "email", "profileImageURL"} else {"username", "email"}
  {
    var base := map["username" := StringValue(u.username), "email" := StringValue(u.email)];
    if u.profileImageURL.Some? then base["profileImageURL" := StringValue(u.profileImageURL.value)] else base
  }

  /** A stored profile reads back as the user it stores, whatever the signed-in email. */
  lemma ProfileRoundTrip(u: User, authEmail: Option<string>)
    ensures ProfileUser(u.id, ProfileFields(u), authEmail) == u
  {
  }

  /** An existing but empty profile document reads the same as a missing one. */
  lemma EmptyProfileIsPlaceholder(userId: string, authEmail: Option<string>)
    ensures ProfileUser(userId, map[], authEmail) == PlaceholderUser(userId, authEmail)
  {
  }

  /** The authentication service's registrations of state-change observers, by handle. */
  class AuthService {
    var observers: set<nat>
    var nextHandle: nat

    ghost predicate Valid()
      reads this
    {
      forall h :: h in observers ==> h < nextHandle
    }

    constructor()
      ensures Valid() && observers == {}
    {
      observers := {};
      nextHandle := 0;
    }

    /** `addStateDidChangeListener`: registers an observer under a handle not in use. */
    method AddStateDidChangeListener() returns (h: nat)
      requires Valid()
      modifies this
      ensures Valid()
      ensures h !in old(observers) && observers == old(observers) + {h}
    {
      h := nextHandle;
      observers := observers + {h};
      nextHandle := nextHandle + 1;
    }

    /** `removeStateDidChangeListener` */
    method RemoveStateDidChangeListener(h: nat)
      requires Valid()
      modifies this
      ensures Valid()
      ensures observers == old(observers) - {h} && nextHandle == old(nextHandle)
    {
      observers := observers - {h};
    }
  }

  /**
   * The document store's live snapshot listeners on profile documents: each registration's id
   * and the uid of the document it watches. A listener delivers snapshots only while registered.
   */
  class ListenerRegistry {
    var listeners: map<nat, string>
    var nextId: nat

    ghost predicate Valid()
      reads this
    {
      forall id :: id in listeners ==> id < nextId
    }

    constructor()
      ensures Valid() && listeners == map[]
    {
      listeners := map[];
      nextId := 0;
    }

    /** `document(userId).addSnapshotListener`: a new registration, under an id never used before. */
    method AddSnapshotListener(userId: string) returns (id: nat)
      requires Valid()
      modifies this
      ensures Valid()
      ensures id !in old(listeners) && listeners == old(listeners)[id := userId]
      ensures id == old(nextId) && nextId == id + 1
    {
      id := nextId;
      listeners := listeners[id := userId];
      nextId := nextId + 1;
    }

    /** `ListenerRegistration.remove()` */
    method Remove(id: nat)
      requires Valid()
      modifies this
      ensures Valid()
      ensures listeners == old(listeners) - {id} && nextId == old(nextId)
    {
      listeners := listeners - {id};
    }
  }

  class AuthManager {
    var isAuthenticated: bool
    var currentUser: Option<User>
    var authStateHandle: Option<nat>
    var userListener: Option<nat>
    /** `Auth.auth()` and `Firestore.firestore()`, as far as the manager registers with them. */
    const auth: AuthService
    const store: ListenerRegistry

    /** The manager's auth observer is registered, and the only profile listener alive is the one it holds. */
    ghost predicate ListenersValid()
      reads this, auth, store
    {
      && auth.Valid() && store.Valid()
      && authStateHandle.Some? && authStateHandle.value in auth.observers
      && store.listeners.Keys == (if userListener.Some? then {userListener.value} else {})
    }

    ghost predicate Valid()
      reads this, auth, store
    {
      && ListenersValid()
      && (isAuthenticated ==> userListener.Some?)
      && (userListener.None? ==> currentUser.None?)
    }

    /** `init()`: signed out, no profile, and an auth state observer registered. */
    constructor()
      ensures Valid() && fresh(auth) && fresh(store)
      ensures !isAuthenticated && currentUser.None? && userListener.None?
      ensures auth.observers == {authStateHandle.value}
    {
      isAuthenticated := false;
      currentUser := None;
      userListener := None;
      authStateHandle := None;
      auth := new AuthService();
      store := new ListenerRegistry();
      new;
      var h := auth.AddStateDidChangeListener();
      authStateHandle := Some(h);
    }

    /**
     * The auth state observer. Signed in: authenticated, and the profile listener is replaced by
     * one on the new uid. Signed out: not authenticated, no profile, and no profile listener left.
     */
    method OnAuthStateChanged(user: Option<AuthUser>)
      requires Valid()
      modifies this, store
      ensures Valid()
      ensures isAuthenticated == user.Some?
      ensures authStateHandle == old(authStateHandle)
      ensures user.None? ==>
        && currentUser.None? && userListener.None? && store.listeners == map[]
        && store.nextId == old(store.nextId)
      ensures user.Some? ==>
        && currentUser == old(currentUser)
        && userListener == Some(old(store.nextId)) && store.nextId == old(store.nextId) + 1
        && store.listeners == map[userListener.value := user.value.uid]
    {
      isAuthenticated := user.Some?;
      if user.Some? {
        FetchUserData(user.value.uid);
      } else {
        currentUser := None;
        if userListener.Some? {
          store.Remove(userListener.value);
        }
        userListener := None;
      }
    }

    /**
     * `fetchUserData`: removes the listener held, if any, before registering a new one on
     * `users/{userId}`, so no two profile listeners are ever alive together. The new one has an
     * id the registry never issued before, so no listener removed earlier can come back.
     */
    method FetchUserData(userId: string)
      requires ListenersValid()
      modifies this`userListener, store
      ensures ListenersValid()
      ensures userListener == Some(old(store.nextId)) && store.nextId == old(store.nextId) + 1
      ensures store.listeners == map[userListener.value := userId]
    {
      if userListener.Some? {
        store.Remove(userListener.value);
      }
      var id := store.AddSnapshotListener(userId);
      userListener := Some(id);
    }

    /**
     * The profile listener's callback, for the registration `listener`; `authEmail` is the
     * signed-in user's email when it runs. A removed listener delivers nothing. An error keeps
     * the profile; a document gives the user it describes; no document gives the placeholder for
     * the watched uid.
     */
    method OnProfileSnapshot(listener: nat, snapshot: ProfileSnapshot, authEmail: Option<string>)
      requires Valid()
      modifies this`currentUser
      ensures Valid()
      ensures listener !in store.listeners ==> currentUser == old(currentUser)
      ensures listener in store.listeners ==>
        currentUser == match snapshot
          case SnapshotError => old(currentUser)
          case NoDocument => Some(PlaceholderUser(store.listeners[listener], authEmail))
          case DocumentData(documentID, data) => Some(ProfileUser(documentID, data, authEmail))
    {
      if listener !in store.listeners {
        return;
      }
      var userId := store.listeners[listener];
      match snapshot
      case SnapshotError =>
        return;
      case NoDocument =>
        currentUser := Some(PlaceholderUser(userId, authEmail));
      case DocumentData(documentID, data) =>
        currentUser := Some(ProfileUser(documentID, data, authEmail));
    }

    /** `refreshUserData`: re-subscribes for the service's current uid; a no-op when signed out. */
    method RefreshUserData(currentUid: Option<string>)
      requires Valid()
      modifies this`userListener, store
      ensures Valid()
      ensures currentUid.None? ==>
        && userListener == old(userListener) && store.listeners == old(store.listeners)
        && store.nextId == old(store.nextId)
      ensures currentUid.Some? ==>
        && userListener == Some(old(store.nextId)) && store.nextId == old(store.nextId) + 1
        && store.listeners == map[userListener.value := currentUid.value]
    {
      if currentUid.Some? {
        FetchUserData(currentUid.value);
      }
    }

    /** `deinit`: unregisters the auth observer and removes the profile listener. */
    method Deinit()
      requires ListenersValid()
      modifies auth, store
      ensures auth.observers == old(auth.observers) - {authStateHandle.value}
      ensures store.listeners == map[]
    {
      if authStateHandle.Some? {
        auth.RemoveStateDidChangeListener(authStateHandle.value);
      }
      if userListener.Some? {
        store.Remove(userListener.value);
      }
    }
  }

  /** While the manager is consistent, at most one profile listener is alive, and it is the one the manager holds. */
  lemma AtMostOneProfileListener(m: AuthManager)
    requires m.ListenersValid()
    ensures |m.store.listeners| <= 1
    ensures forall id :: id in m.store.listeners ==> m.userListener == Some(id)
  {
    assert |m.store.listeners| == |m.store.listeners.Keys|;
  }

  /**
   * Sign in, get a profile, switch account, then sign out, then sign in as the first account
   * again: a late snapshot from the first account's original listener changes nothing at any
   * point, and after sign-out no earlier listener can bring a profile back.
   */
  method StaleListenersAreSilenced(first: AuthUser, second: AuthUser, late: ProfileSnapshot, authEmail: Option<string>)
    returns (profileAfterSwitch: Option<User>, profileAfterSignOut: Option<User>, profileAfterSignInAgain: Option<User>)
    ensures profileAfterSwitch == Some(PlaceholderUser(first.uid, authEmail))
    ensures profileAfterSignOut.None?
    ensures profileAfterSignInAgain.None?
  {
    var m := new AuthManager();
    m.OnAuthStateChanged(Some(first));
    var firstListener := m.userListener.value;
    m.OnProfileSnapshot(firstListener, NoDocument, authEmail);
    m.OnAuthStateChanged(Some(second));
    var secondListener := m.userListener.value;
    m.OnProfileSnapshot(firstListener, late, authEmail);
    profileAfterSwitch := m.currentUser;
    m.OnAuthStateChanged(None);
    m.OnProfileSnapshot(firstListener, late, authEmail);
    m.OnProfileSnapshot(secondListener, late, authEmail);
    profileAfterSignOut := m.currentUser;
    m.OnAuthStateChanged(Some(first));
    m.OnProfileSnapshot(firstListener, late, authEmail);
    m.OnProfileSnapshot(secondListener, late, authEmail);
    profileAfterSignInAgain := m.currentUser;
  }
}
