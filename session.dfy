/**
 * The signed-in user of the front-end (`AuthContext`): restored from
 * `localStorage` on mount, written back whenever it changes, and the `isAdmin`
 * flag derived from it. `JSON.parse`/`JSON.stringify` are parameters: `parse`
 * yields `None` where `JSON.parse` throws.
 */
module Session {
  import opened Wrappers
  import opened Api
  import opened Storage

  const UserKey: string := "sr_user"

  /** What the mount effect adopts: a non-empty stored value that parses. */
  function StoredUser(storage: map<string, string>, parse: string -> Option<User>): (u: Option<User>)
    ensures u.Some? ==> UserKey in storage && storage[UserKey] != "" && parse(storage[UserKey]) == u
    ensures u.None? ==> UserKey !in storage || storage[UserKey] == "" || parse(storage[UserKey]).None?
  {
    if UserKey in storage && storage[UserKey] != "" then parse(storage[UserKey]) else None
  }

  /** What the persist effect leaves in storage for a user: their JSON, or no key at all. */
  function Persisted(storage: map<string, string>, user: Option<User>, encode: User -> string): (s: map<string, string>)
    ensures forall k :: k != UserKey ==> (k in s <==> k in storage) && (k in s ==> s[k] == storage[k])
    ensures user.Some? ==> UserKey in s && s[UserKey] == encode(user.value)
    ensures user.None? ==> UserKey !in s
  {
    if user.Some? then storage[UserKey := encode(user.value)] else storage - {UserKey}
  }

  /**
   * Persisting a user and mounting again restores that same user, provided
   * the codec round-trips it; persisting `null` makes the next mount start signed out.
   */
  lemma PersistThenRestore(storage: map<string, string>, user: Option<User>,
                           encode: User -> string, parse: string -> Option<User>)
    requires user.Some? ==> encode(user.value) != "" && parse(encode(user.value)) == user
    ensures StoredUser(Persisted(storage, user, encode), parse) == user
  {
  }

  /** `user?.is_admin ?? false` */
  function IsAdmin(user: Option<User>): (admin: bool)
    ensures admin <==> user.Some? && user.value.isAdmin
  {
    if user.Some? then user.value.isAdmin else false
  }

  /** The value the provider hands to `useAuth`. */
  datatype AuthValue = AuthValue(user: Option<User>, isAdmin: bool)

  const OutsideProviderMessage: string := "useAuth must be used within an AuthProvider"

  /** `useAuth()`: the provider's value, or an error when no provider is above the caller. */
  function UseAuth(context: Option<AuthValue>): (r: Outcome<AuthValue>)
    ensures context.Some? ==> r == Ok(context.value)
    ensures context.None? ==> r == Reject(OutsideProviderMessage)
  {
    if context.Some? then Ok(context.value) else Reject(OutsideProviderMessage)
  }

  class AuthProvider {
    var user: Option<User>
    const encode: User -> string
    const parse: string -> Option<User>

    /** The render before any effect has run: nobody is signed in yet. */
    constructor(encode: User -> string, parse: string -> Option<User>)
      ensures user == None && this.encode == encode && this.parse == parse
    {
      user := None;
      this.encode := encode;
      this.parse := parse;
    }

    function Value(): (v: AuthValue)
      reads this
      ensures v.user == user && (v.isAdmin <==> user.Some? && user.value.isAdmin)
    {
      AuthValue(user, IsAdmin(user))
    }

    /** The persist effect for the current user. */
    method Persist(browser: Browser)
      modifies browser
      ensures browser.localStorage == Persisted(old(browser.localStorage), user, encode)
      ensures browser.cookies == old(browser.cookies) && browser.protocol == old(browser.protocol)
    {
      if user.Some? {
        browser.SetItem(UserKey, encode(user.value));
      } else {
        browser.RemoveItem(UserKey);
      }
    }

    /**
     * The first commit: the restore effect schedules the stored user, the
     * persist effect then runs once with `null` and removes the key, and the
     * re-render that adopts a restored user persists it again.
     */
    method Mount(browser: Browser)
      requires user == None
      modifies this`user, browser
      ensures user == StoredUser(old(browser.localStorage), parse)
      ensures browser.localStorage == Persisted(old(browser.localStorage), user, encode)
      ensures browser.cookies == old(browser.cookies)
    {
      var restored := StoredUser(browser.localStorage, parse);
      Persist(browser);
      if restored.Some? {
        user := restored;
        Persist(browser);
      }
    }

    /** `setUser(u)` and the persist effect it triggers when the user changes. */
    method SetUser(browser: Browser, u: Option<User>)
      requires browser.localStorage == Persisted(browser.localStorage, user, encode)
      modifies this`user, browser
      ensures user == u && Value().isAdmin == IsAdmin(u)
      ensures browser.localStorage == Persisted(old(browser.localStorage), u, encode)
      ensures browser.cookies == old(browser.cookies)
    {
      var changed := user != u;
      user := u;
      if changed {
        Persist(browser);
      }
    }
  }
}
