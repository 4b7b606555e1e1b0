/** The signed-in identity as the client keeps it, and the three browser localStorage
    entries that the authentication code reads and writes: 'jwt_token', 'user' and
    'auth-storage' (the persisted copy of the authentication store). */
module Session {
  import opened Wrappers
  import Js

  /** The identity object. `roles` and `permissions` are None when the field is missing or
      falsy; an empty array is `Some([])` (an empty array is truthy in JavaScript). Roles are
      always strings because every writer converts them with `String(...)`; permission entries
      are kept as whatever the server sent. */
  datatype User = User(username: Js.Value, roles: Option<seq<string>>, permissions: Option<seq<Js.Value>>)

  /** The text stored under 'user': either JSON that parses (to an identity object, or to null)
      or text that makes JSON.parse throw. */
  datatype UserDoc = Parsed(value: Option<User>) | Unparsable(raw: string)

  /** The persisted slice of the authentication store: its user, token and flag. */
  datatype Persisted = Persisted(user: Option<User>, token: Option<string>, isAuthenticated: bool)

  /** A snapshot of the three localStorage entries; None is an absent key. */
  datatype Storage = Storage(jwtToken: Option<string>, user: Option<UserDoc>, authStorage: Option<Persisted>)

  const EmptyStorage := Storage(None, None, None)

  /** `localStorage.getItem(k)` is truthy: present and not the empty text. */
  predicate TextTruthy(t: Option<string>) {
    t.Some? && t.value != ""
  }

  /** Whether the 'user' entry reads as truthy text. JSON text is never empty. */
  predicate UserDocTruthy(d: Option<UserDoc>) {
    match d
    case None => false
    case Some(Parsed(_)) => true
    case Some(Unparsable(raw)) => raw != ""
  }

  /** The browser's localStorage, shared by every module of the client. */
  class LocalStorage {
    var jwtToken: Option<string>
    var user: Option<UserDoc>
    var authStorage: Option<Persisted>

    constructor ()
      ensures jwtToken == None && user == None && authStorage == None
    {
      jwtToken := None;
      user := None;
      authStorage := None;
    }

    function Snapshot(): (s: Storage)
      reads this
      ensures s.jwtToken == jwtToken && s.user == user && s.authStorage == authStorage
    {
      Storage(jwtToken, user, authStorage)
    }
  }
}
