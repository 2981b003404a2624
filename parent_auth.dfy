/**
 * The parent session provider. The remote auth client is not modelled: the
 * session it reports at start-up and in its change events are inputs, and
 * each remote sign-out it is asked for is counted. The provider's own rules
 * are modelled: a session is restored at start-up only while the tab's
 * session storage holds the token key, and leaving or reloading the page
 * wipes the persisted tokens.
 */
module ParentAuth {
  import opened Base
  import opened Storage
  import opened Backend

  /** The two local-storage keys the provider wipes. */
  const LegacyTokenKey: string := "supabase.auth.token"
  const ProjectTokenKey: string := "sb-amswxkulhgtrmowocmtu-auth-token"

  /** The window events the provider listens to. */
  datatype WindowEvent = BeforeUnload | PageHide

  /** `session?.user ?? null`. */
  function UserOf(s: Option<Session>): (u: Option<User>)
    ensures u.Some? <==> s.Some?
    ensures u.Some? ==> u.value == s.value.user
  {
    if s.Some? then Some(s.value.user) else None
  }

  /**
   * The session the start-up check keeps: the remote session, but only when
   * there is one and the tab's session storage holds a truthy token value.
   */
  function Admitted(token: Option<StoredValue>, remote: Option<Session>): (s: Option<Session>)
    ensures s.Some? <==> remote.Some? && Truthy(token)
    ensures s.Some? ==> s == remote
  {
    if Truthy(token) && remote.Some? then remote else None
  }

  class AuthProvider {
    const localStore: KeyValueStore
    const sessionStore: KeyValueStore
    var user: Option<User>
    var session: Option<Session>
    var loading: bool
    /** The auth-change listener is registered. */
    var subscribed: bool
    /** The window events with the unload handler registered. */
    var listeners: set<WindowEvent>
    /** Remote sign-outs requested so far. */
    var remoteSignOuts: nat

    /** The two browser stores are different objects. */
    predicate Valid()
      reads this
    {
      localStore != sessionStore
    }

    constructor (localStore: KeyValueStore, sessionStore: KeyValueStore)
      requires localStore != sessionStore
      ensures Valid() && this.localStore == localStore && this.sessionStore == sessionStore
      ensures user == None && session == None && loading
      ensures !subscribed && listeners == {} && remoteSignOuts == 0
    {
      this.localStore := localStore;
      this.sessionStore := sessionStore;
      user := None;
      session := None;
      loading := true;
      subscribed := false;
      listeners := {};
      remoteSignOuts := 0;
    }

    /** The mount effect's registrations: both unload events, then the auth-change listener. */
    method Mount()
      modifies this
      ensures listeners == old(listeners) + {BeforeUnload, PageHide} && subscribed
      ensures user == old(user) && session == old(session) && loading == old(loading)
      ensures remoteSignOuts == old(remoteSignOuts)
    {
      listeners := listeners + {BeforeUnload};
      listeners := listeners + {PageHide};
      subscribed := true;
    }

    /**
     * A window event: when the handler is registered for it, exactly the two
     * local-storage token keys are removed and a remote sign-out is
     * requested; session storage is never touched.
     */
    method OnPageEvent(e: WindowEvent)
      requires Valid()
      modifies this, localStore
      ensures e in listeners ==>
        && localStore.entries == old(localStore.entries) - {LegacyTokenKey, ProjectTokenKey}
        && remoteSignOuts == old(remoteSignOuts) + 1
      ensures e !in listeners ==>
        localStore.entries == old(localStore.entries) && remoteSignOuts == old(remoteSignOuts)
      ensures sessionStore.entries == old(sessionStore.entries)
      ensures user == old(user) && session == old(session) && loading == old(loading)
      ensures subscribed == old(subscribed) && listeners == old(listeners)
    {
      if e in listeners {
        localStore.RemoveItem(LegacyTokenKey);
        localStore.RemoveItem(ProjectTokenKey);
        remoteSignOuts := remoteSignOuts + 1;
      }
    }

    /**
     * An auth-state event reaching the listener: the session becomes the
     * event's session, the user its user or null, and loading ends.
     */
    method OnAuthStateChange(s: Option<Session>)
      modifies this
      ensures subscribed ==> session == s && user == UserOf(s) && !loading
      ensures !subscribed ==> session == old(session) && user == old(user) && loading == old(loading)
      ensures subscribed == old(subscribed) && listeners == old(listeners)
      ensures remoteSignOuts == old(remoteSignOuts)
    {
      if subscribed {
        session := s;
        user := UserOf(s);
        loading := false;
      }
    }

    /**
     * The start-up `getSession` callback: the remote session is kept only
     * when it exists and the tab's session storage holds the token;
     * otherwise user and session are cleared. Loading ends either way.
     */
    method OnInitialSession(remote: Option<Session>)
      modifies this
      ensures var kept := Admitted(sessionStore.GetItem(ProjectTokenKey), remote);
        session == kept && user == UserOf(kept)
      ensures !loading
      ensures subscribed == old(subscribed) && listeners == old(listeners)
      ensures remoteSignOuts == old(remoteSignOuts)
    {
      var sessionData := sessionStore.GetItem(ProjectTokenKey);
      if Truthy(sessionData) && remote.Some? {
        session := remote;
        user := UserOf(remote);
      } else {
        session := None;
        user := None;
      }
      loading := false;
    }

    /**
     * `signOut`: the remote sign-out, then the two local-storage keys and
     * the session-storage token key are removed, and no other key. The
     * in-memory session is left to the auth-change event that follows.
     */
    method SignOut()
      requires Valid()
      modifies this, localStore, sessionStore
      ensures remoteSignOuts == old(remoteSignOuts) + 1
      ensures localStore.entries == old(localStore.entries) - {LegacyTokenKey, ProjectTokenKey}
      ensures sessionStore.entries == old(sessionStore.entries) - {ProjectTokenKey}
      ensures user == old(user) && session == old(session) && loading == old(loading)
      ensures subscribed == old(subscribed) && listeners == old(listeners)
    {
      remoteSignOuts := remoteSignOuts + 1;
      localStore.RemoveItem(LegacyTokenKey);
      localStore.RemoveItem(ProjectTokenKey);
      sessionStore.RemoveItem(ProjectTokenKey);
    }

    /** The effect's clean-up: the listener is unsubscribed and both handlers removed. */
    method Teardown()
      modifies this
      ensures !subscribed && listeners == old(listeners) - {BeforeUnload, PageHide} && listeners == {}
      ensures user == old(user) && session == old(session) && loading == old(loading)
      ensures remoteSignOuts == old(remoteSignOuts)
    {
      subscribed := false;
      listeners := listeners - {BeforeUnload};
      listeners := listeners - {PageHide};
      assert listeners == {} by {
        forall e: WindowEvent ensures e !in listeners {
          assert e == BeforeUnload || e == PageHide;
        }
      }
    }
  }

  /**
   * A provider started in a tab after `signOut`: whatever session the
   * remote client's `getSession` still reports, the start-up check restores
   * no user. (Sessions the auth-change listener reports are not gated.)
   */
  method StartAfterSignOut(localStore: KeyValueStore, sessionStore: KeyValueStore, remote: Option<Session>)
    returns (user: Option<User>)
    requires localStore != sessionStore
    modifies localStore, sessionStore
    ensures user == None
  {
    var before := new AuthProvider(localStore, sessionStore);
    before.Mount();
    before.SignOut();
    var after := new AuthProvider(localStore, sessionStore);
    after.Mount();
    after.OnInitialSession(remote);
    user := after.user;
  }
}
