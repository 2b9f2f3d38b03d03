/**
 * The remote side of the app (lib/firebase.ts): a Realtime Database tree in
 * which each user's profile lives at `users/{uid}/profile` and each session
 * record at `users/{uid}/sessions/{date}`, plus the auth error-message table.
 */
module Firebase {
  import opened Storage

  /**
   * A profile's `createdAt`, as `new Date(createdAt)` sees it: a point in
   * time in milliseconds, or an invalid date (text that does not parse).
   */
  datatype Instant = At(millis: int) | InvalidDate

  datatype UserProfile = UserProfile(name: string, age: int, email: string, createdAt: Instant)

  datatype SessionData = SessionData(completed: bool, durationMinutes: int, roundsDone: int, sessionType: string)

  /** The children of `users/{uid}`: an optional `profile` node and the `sessions` node, by date. */
  datatype UserNode = UserNode(profile: Option<UserProfile>, sessions: map<string, SessionData>)

  /** The `users` node of the database, by uid. */
  type Tree = map<string, UserNode>

  /** The database paths the app reads and writes. */
  datatype Path = ProfileAt(uid: string) | SessionAt(uid: string, date: string)

  datatype Node = ProfileNode(profile: UserProfile) | SessionNode(session: SessionData)

  /** A profile path holds a profile, a session path a session record. */
  predicate Fits(path: Path, node: Node) {
    path.ProfileAt? <==> node.ProfileNode?
  }

  /** `users/{uid}`; a user with nothing stored reads as an empty node. */
  function UserAt(tree: Tree, uid: string): UserNode {
    if uid in tree then tree[uid] else UserNode(None, map[])
  }

  /** `get(ref(database, path)).val()` for a leaf path: the node there, or `null`. */
  function Get(tree: Tree, path: Path): (r: Option<Node>)
    ensures r.Some? ==> Fits(path, r.value)
  {
    match path
    case ProfileAt(uid) =>
      var p := UserAt(tree, uid).profile;
      if p.Some? then Some(ProfileNode(p.value)) else None
    case SessionAt(uid, date) =>
      var sessions := UserAt(tree, uid).sessions;
      if date in sessions then Some(SessionNode(sessions[date])) else None
  }

  /** `set(ref(database, path), node)`: replaces the node at `path` and nothing else. */
  function Set(tree: Tree, path: Path, node: Node): Tree
    requires Fits(path, node)
  {
    var user := UserAt(tree, path.uid);
    match path
    case ProfileAt(uid) => tree[uid := user.(profile := Some(node.profile))]
    case SessionAt(uid, date) => tree[uid := user.(sessions := user.sessions[date := node.session])]
  }

  /** Set/get semantics: a read after a write sees the written node at its path and the old node everywhere else. */
  lemma GetAfterSet(tree: Tree, path: Path, node: Node, q: Path)
    requires Fits(path, node)
    ensures Get(Set(tree, path, node), q) == if q == path then Some(node) else Get(tree, q)
  {
  }

  /** `getUserProfile(uid)`: the profile node's value, or `null` when nothing is stored there. */
  function GetUserProfile(tree: Tree, uid: string): (r: Option<UserProfile>)
    ensures r.Some? <==> Get(tree, ProfileAt(uid)).Some?
    ensures r.Some? ==> Get(tree, ProfileAt(uid)) == Some(ProfileNode(r.value))
  {
    UserAt(tree, uid).profile
  }

  /** `getAllSessions(uid)`: the children of `users/{uid}/sessions` by date, `{}` when there are none. */
  function GetAllSessions(tree: Tree, uid: string): (r: map<string, SessionData>)
    ensures forall date :: date in r <==> Get(tree, SessionAt(uid, date)).Some?
    ensures forall date :: date in r ==> Get(tree, SessionAt(uid, date)) == Some(SessionNode(r[date]))
  {
    UserAt(tree, uid).sessions
  }

  /** The remote database as the app sees it: one tree that `set` overwrites node by node. */
  class RemoteDatabase {
    var tree: Tree

    constructor ()
      ensures tree == map[]
    {
      tree := map[];
    }

    /** `saveUserProfile(uid, profile)`: `set` on `users/{uid}/profile`. */
    method SaveUserProfile(uid: string, profile: UserProfile)
      modifies this
      ensures tree == Set(old(tree), ProfileAt(uid), ProfileNode(profile))
      ensures GetUserProfile(tree, uid) == Some(profile)
      ensures forall u :: GetAllSessions(tree, u) == GetAllSessions(old(tree), u)
    {
      tree := Set(tree, ProfileAt(uid), ProfileNode(profile));
    }

    /** `saveSession(uid, date, data)`: `set` on `users/{uid}/sessions/{date}`, replacing the whole record. */
    method SaveSession(uid: string, date: string, data: SessionData)
      modifies this
      ensures tree == Set(old(tree), SessionAt(uid, date), SessionNode(data))
      ensures GetAllSessions(tree, uid) == GetAllSessions(old(tree), uid)[date := data]
      ensures forall u :: u != uid ==> GetAllSessions(tree, u) == GetAllSessions(old(tree), u)
      ensures forall u :: GetUserProfile(tree, u) == GetUserProfile(old(tree), u)
    {
      tree := Set(tree, SessionAt(uid, date), SessionNode(data));
    }
  }

  /**
   * `saveSession(uid, date, data)` writes exactly one record: the collection
   * of `uid` gains (or has replaced) `date` with `data` in full, every other
   * user's collection and every profile stays as it was.
   */
  lemma SaveSessionFrame(tree: Tree, uid: string, date: string, data: SessionData)
    ensures GetAllSessions(Set(tree, SessionAt(uid, date), SessionNode(data)), uid) == GetAllSessions(tree, uid)[date := data]
    ensures forall u :: u != uid ==> GetAllSessions(Set(tree, SessionAt(uid, date), SessionNode(data)), u) == GetAllSessions(tree, u)
    ensures forall u :: GetUserProfile(Set(tree, SessionAt(uid, date), SessionNode(data)), u) == GetUserProfile(tree, u)
  {
  }

  /** A saved profile is what `getUserProfile` reads back; no session of any user moves. */
  lemma SaveThenGetProfile(tree: Tree, uid: string, profile: UserProfile)
    ensures GetUserProfile(Set(tree, ProfileAt(uid), ProfileNode(profile)), uid) == Some(profile)
    ensures forall u :: GetAllSessions(Set(tree, ProfileAt(uid), ProfileNode(profile)), u) == GetAllSessions(tree, u)
  {
  }

  /** With nothing stored, `getUserProfile` yields `null` and `getAllSessions` yields `{}`. */
  lemma EmptyDatabaseReads(uid: string)
    ensures GetUserProfile(map[], uid) == None
    ensures GetAllSessions(map[], uid) == map[]
  {
  }

  const DefaultErrorMessage := "An error occurred. Please try again"

  /** The eight Firebase Auth codes the app gives a message of its own. */
  const KnownAuthErrorCodes: set<string> := {
    "auth/invalid-email", "auth/user-disabled", "auth/user-not-found", "auth/wrong-password",
    "auth/invalid-credential", "auth/email-already-in-use", "auth/weak-password",
    "auth/too-many-requests"
  }

  /** `getFirebaseErrorMessage(code)`: a fixed message per known code, a generic one otherwise. */
  function GetFirebaseErrorMessage(code: string): (message: string)
    ensures message == DefaultErrorMessage <==> code !in KnownAuthErrorCodes
    ensures message != ""
  {
    if code == "auth/invalid-email" then "Invalid email address"
    else if code == "auth/user-disabled" then "This account has been disabled"
    else if code == "auth/user-not-found" then "No account found with this email"
    else if code == "auth/wrong-password" then "Incorrect password"
    else if code == "auth/invalid-credential" then "Invalid email or password"
    else if code == "auth/email-already-in-use" then "An account already exists with this email"
    else if code == "auth/weak-password" then "Password must be at least 6 characters"
    else if code == "auth/too-many-requests" then "Too many attempts. Please try again later"
    else DefaultErrorMessage
  }

  /** The known code a message was made for (the inverse of the table), or `""` for any other text. */
  function CodeOfMessage(message: string): string {
    if message == "Invalid email address" then "auth/invalid-email"
    else if message == "This account has been disabled" then "auth/user-disabled"
    else if message == "No account found with this email" then "auth/user-not-found"
    else if message == "Incorrect password" then "auth/wrong-password"
    else if message == "Invalid email or password" then "auth/invalid-credential"
    else if message == "An account already exists with this email" then "auth/email-already-in-use"
    else if message == "Password must be at least 6 characters" then "auth/weak-password"
    else if message == "Too many attempts. Please try again later" then "auth/too-many-requests"
    else ""
  }

  /** The message of a known code identifies the code. */
  lemma MessageIdentifiesCode(code: string)
    requires code in KnownAuthErrorCodes
    ensures CodeOfMessage(GetFirebaseErrorMessage(code)) == code
  {
    var m := GetFirebaseErrorMessage(code);
    if code == "auth/invalid-email" {
      assert m == "Invalid email address";
    } else if code == "auth/user-disabled" {
      assert m == "This account has been disabled";
    } else if code == "auth/user-not-found" {
      assert m == "No account found with this email";
    } else if code == "auth/wrong-password" {
      assert m == "Incorrect password";
    } else if code == "auth/invalid-credential" {
      assert m == "Invalid email or password";
    } else if code == "auth/email-already-in-use" {
      assert m == "An account already exists with this email";
    } else if code == "auth/weak-password" {
      assert m == "Password must be at least 6 characters";
    } else {
      assert m == "Too many attempts. Please try again later";
    }
  }

  /** Different known codes never share a message, so the user can tell them apart. */
  lemma KnownErrorMessagesDistinct(a: string, b: string)
    requires a in KnownAuthErrorCodes && b in KnownAuthErrorCodes && a != b
    ensures GetFirebaseErrorMessage(a) != GetFirebaseErrorMessage(b)
  {
    MessageIdentifiesCode(a);
    MessageIdentifiesCode(b);
  }
}
