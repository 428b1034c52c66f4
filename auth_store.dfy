/**
 * The global authentication store. Every setter hands a partial state to the
 * store's `set`, which merges it shallowly: fields named in the partial state
 * are overwritten, all others keep their value.
 */
module AuthStore {
  import opened Wrappers

  /** The five data fields of the store; `U` is the signed-in user record. */
  datatype AuthState<U> = AuthState(
    user: Option<U>,
    loading: bool,
    error: Option<string>,
    isLoadingProfile: bool,
    loadingMessage: Option<string>)

  /** A partial state: `None` leaves the field alone, `Some(v)` writes `v`. */
  datatype Patch<U> = Patch(
    user: Option<Option<U>>,
    loading: Option<bool>,
    error: Option<Option<string>>,
    isLoadingProfile: Option<bool>,
    loadingMessage: Option<Option<string>>)

  /** The store's shallow merge of a partial state into the current one. */
  function Merge<U>(s: AuthState<U>, p: Patch<U>): (t: AuthState<U>)
  {
    AuthState(
      p.user.GetOr(s.user),
      p.loading.GetOr(s.loading),
      p.error.GetOr(s.error),
      p.isLoadingProfile.GetOr(s.isLoadingProfile),
      p.loadingMessage.GetOr(s.loadingMessage))
  }

  /** The state the store is created with. */
  function InitialState<U>(): AuthState<U> {
    AuthState(None, true, None, false, None)
  }

  // The partial states the setters hand to `set`.

  function SetUserPatch<U>(u: Option<U>): Patch<U> {
    Patch(Some(u), Some(false), None, None, None)
  }

  function SetLoadingPatch<U>(loading: bool): Patch<U> {
    Patch(None, Some(loading), None, None, None)
  }

  function SetErrorPatch<U>(error: Option<string>): Patch<U> {
    Patch(None, None, Some(error), None, None)
  }

  /** `message` defaults to null when the caller leaves it out. */
  function SetIsLoadingProfilePatch<U>(isLoadingProfile: bool, message: Option<string>): Patch<U> {
    Patch(None, None, None, Some(isLoadingProfile), Some(message))
  }

  function ClearAuthPatch<U>(): Patch<U> {
    Patch(Some(None), Some(false), Some(None), Some(false), Some(None))
  }

  /** `setUser` writes the user and ends loading; the other three fields are kept. */
  lemma SetUserEffect<U>(s: AuthState<U>, u: Option<U>)
    ensures Merge(s, SetUserPatch(u)) == s.(user := u, loading := false)
  {
  }

  /** `setLoading` and `setError` each change their own field and nothing else. */
  lemma SingleFieldSetters<U>(s: AuthState<U>, loading: bool, error: Option<string>)
    ensures Merge(s, SetLoadingPatch(loading)) == s.(loading := loading)
    ensures Merge(s, SetErrorPatch(error)) == s.(error := error)
  {
  }

  /**
   * `clearAuth` empties every field, with `loading` false rather than the
   * initial true, and clearing twice is clearing once.
   */
  lemma ClearAuthEffect<U>(s: AuthState<U>)
    ensures Merge(s, ClearAuthPatch()) == InitialState<U>().(loading := false)
    ensures Merge(Merge(s, ClearAuthPatch()), ClearAuthPatch()) == Merge(s, ClearAuthPatch())
  {
  }

  /** A merge writes exactly the fields the partial state names. */
  lemma {:induction false} MergeWritesNamedFields<U>(s: AuthState<U>, p: Patch<U>)
    ensures Merge(s, p) == s <==>
      (p.user.None? || p.user.value == s.user) &&
      (p.loading.None? || p.loading.value == s.loading) &&
      (p.error.None? || p.error.value == s.error) &&
      (p.isLoadingProfile.None? || p.isLoadingProfile.value == s.isLoadingProfile) &&
      (p.loadingMessage.None? || p.loadingMessage.value == s.loadingMessage)
  {
  }

  /** Merging the same partial state twice is merging it once. */
  lemma MergeIdempotent<U>(s: AuthState<U>, p: Patch<U>)
    ensures Merge(Merge(s, p), p) == Merge(s, p)
  {
  }

  /** The store object; `State()` is the record its subscribers see. */
  class Store<U> {
    var user: Option<U>
    var loading: bool
    var error: Option<string>
    var isLoadingProfile: bool
    var loadingMessage: Option<string>

    function State(): AuthState<U>
      reads this
    {
      AuthState(user, loading, error, isLoadingProfile, loadingMessage)
    }

    constructor ()
      ensures State() == InitialState()
      ensures user == None && loading && error == None && !isLoadingProfile && loadingMessage == None
    {
      user, loading, error := None, true, None;
      isLoadingProfile, loadingMessage := false, None;
    }

    /** The store's `set`: merges a partial state shallowly. */
    method Set(p: Patch<U>)
      modifies this
      ensures State() == Merge(old(State()), p)
    {
      var t := Merge(State(), p);
      user, loading, error := t.user, t.loading, t.error;
      isLoadingProfile, loadingMessage := t.isLoadingProfile, t.loadingMessage;
    }

    method SetUser(u: Option<U>)
      modifies this
      ensures State() == Merge(old(State()), SetUserPatch(u))
      ensures user == u && !loading
      ensures error == old(error) && isLoadingProfile == old(isLoadingProfile)
      ensures loadingMessage == old(loadingMessage)
    {
      Set(SetUserPatch(u));
    }

    method SetLoading(value: bool)
      modifies this
      ensures State() == old(State()).(loading := value)
    {
      Set(SetLoadingPatch(value));
    }

    method SetError(value: Option<string>)
      modifies this
      ensures State() == old(State()).(error := value)
    {
      Set(SetErrorPatch(value));
    }

    /** `message` is `None` both when the caller passes null and when it leaves it out. */
    method SetIsLoadingProfile(value: bool, message: Option<string>)
      modifies this
      ensures State() == old(State()).(isLoadingProfile := value, loadingMessage := message)
    {
      Set(SetIsLoadingProfilePatch(value, message));
    }

    /** Has the same effect as `SetUser`. */
    method InitializeUser(u: Option<U>)
      modifies this
      ensures State() == Merge(old(State()), SetUserPatch(u))
      ensures user == u && !loading
      ensures error == old(error) && isLoadingProfile == old(isLoadingProfile)
      ensures loadingMessage == old(loadingMessage)
    {
      Set(SetUserPatch(u));
    }

    method ClearAuth()
      modifies this
      ensures State() == AuthState(None, false, None, false, None)
    {
      Set(ClearAuthPatch());
    }
  }

  /**
   * A client of two stores: `initializeUser` and `setUser` leave equal
   * states behind, and clearing twice leaves what clearing once did.
   */
  method StoreClient<U>(u: U) returns (viaSetUser: AuthState<U>, viaInitialize: AuthState<U>, cleared: AuthState<U>)
    ensures viaSetUser == viaInitialize == AuthState(Some(u), false, Some("e"), false, None)
    ensures cleared == InitialState<U>().(loading := false)
  {
    var a := new Store<U>();
    var b := new Store<U>();
    a.SetError(Some("e"));
    b.SetError(Some("e"));
    a.SetUser(Some(u));
    b.InitializeUser(Some(u));
    viaSetUser, viaInitialize := a.State(), b.State();
    a.ClearAuth();
    a.ClearAuth();
    cleared := a.State();
  }
}
