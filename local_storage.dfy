/**
 * The device-side store (lib/local-storage.ts): one profile, a date-keyed
 * map of session records and a last-sync time, each under its own
 * AsyncStorage key, and `syncWithFirebase`, which reconciles that store
 * with the remote tree.
 */
module LocalStorage {
  import opened Storage
  import opened Decimal
  import opened Firebase

  type Sessions = map<string, SessionData>

  /**
   * The three keys `@aasanify_user_profile`, `@aasanify_sessions` and
   * `@aasanify_last_sync`. The last-sync time is kept as the text that
   * `time.toString()` produced.
   */
  datatype LocalState = LocalState(profile: Slot<UserProfile>, sessions: Slot<Sessions>, lastSync: Slot<string>)

  /** `getLocalProfile()`: the stored profile, `null` when absent or unreadable. */
  function GetLocalProfile(s: LocalState): (r: Option<UserProfile>)
    ensures r.Some? <==> s.profile.Holds?
    ensures r.Some? ==> r.value == s.profile.value
  {
    if s.profile.Holds? then Some(s.profile.value) else None
  }

  /** `getLocalSessions()`: the stored map, `{}` when absent or unreadable. */
  function GetLocalSessions(s: LocalState): (r: Sessions)
    ensures s.sessions.Holds? ==> r == s.sessions.value
    ensures !s.sessions.Holds? ==> r == map[]
  {
    if s.sessions.Holds? then s.sessions.value else map[]
  }

  /**
   * One call of `getLocalSessions()`: a rejected `getItem` is caught and
   * gives `{}` for that call, whatever the key holds.
   */
  function ReadLocalSessions(s: LocalState, readFails: bool): (r: Sessions)
    ensures readFails ==> r == map[]
    ensures !readFails ==> r == GetLocalSessions(s)
  {
    if readFails then map[] else GetLocalSessions(s)
  }

  /** One call of `getLocalProfile()`: a rejected `getItem` gives `null` for that call. */
  function ReadLocalProfile(s: LocalState, readFails: bool): (r: Option<UserProfile>)
    ensures readFails ==> r == None
    ensures !readFails ==> r == GetLocalProfile(s)
  {
    if readFails then None else GetLocalProfile(s)
  }

  /**
   * `getLastSyncTime()`: `parseInt` of the stored text; `0` when the key is
   * absent, unreadable or holds the empty text.
   */
  function GetLastSyncTime(s: LocalState): (r: JsNumber)
    ensures !s.lastSync.Holds? ==> r == Num(0)
    ensures s.lastSync.Holds? && s.lastSync.value != "" ==> r == ParseInt(s.lastSync.value)
  {
    match s.lastSync
    case Holds(text) => if text == "" then Num(0) else ParseInt(text)
    case _ => Num(0)
  }

  /** `setLastSyncTime(t)` then `getLastSyncTime()` gives back `t`. */
  lemma LastSyncRoundTrip(s: LocalState, time: int)
    ensures GetLastSyncTime(s.(lastSync := Holds(Show(time)))) == Num(time)
  {
    ParseIntShow(time);
  }

  /**
   * `saveSessionLocally(date, session)` after a successful read of a readable
   * store replaces exactly `date`; when the key is unreadable or that read
   * fails, the old collection is lost and only `date` remains.
   */
  lemma SaveSessionLocallyEffect(s: LocalState, date: string, session: SessionData, readFails: bool)
    ensures var seen := ReadLocalSessions(s, readFails);
      var after := GetLocalSessions(s.(sessions := Holds(seen[date := session])));
      && date in after && after[date] == session
      && (!readFails ==> forall d :: d != date ==> (d in after <==> d in GetLocalSessions(s)))
      && (!readFails ==> forall d :: d != date && d in after ==> after[d] == GetLocalSessions(s)[d])
      && (readFails || !s.sessions.Holds? ==> after == map[date := session])
  {
  }

  /**
   * A one-off failure of the read inside `saveSessionLocally` over a stored
   * map drops every other date that map held.
   */
  lemma SaveSessionAfterFailedReadLosesDates(s: LocalState, date: string, session: SessionData)
    requires s.sessions.Holds?
    ensures var after := GetLocalSessions(s.(sessions := Holds(ReadLocalSessions(s, true)[date := session])));
      forall d :: d in s.sessions.value && d != date ==> d !in after
  {
    var after := GetLocalSessions(s.(sessions := Holds(ReadLocalSessions(s, true)[date := session])));
    assert after == map[date := session];
  }

  /** The device store: each field is one AsyncStorage key. */
  class LocalStore {
    var profile: Slot<UserProfile>
    var sessions: Slot<Sessions>
    var lastSync: Slot<string>

    constructor ()
      ensures State() == LocalState(Absent, Absent, Absent)
    {
      profile, sessions, lastSync := Absent, Absent, Absent;
    }

    function State(): LocalState
      reads this
    {
      LocalState(profile, sessions, lastSync)
    }

    /** `saveProfileLocally(profile)`; a failed write is logged and swallowed. */
    method SaveProfileLocally(p: UserProfile, writeFails: bool)
      modifies this
      ensures State() == if writeFails then old(State()) else old(State()).(profile := Holds(p))
    {
      if !writeFails {
        profile := Holds(p);
      }
    }

    /** `saveSessionsLocally(sessions)`; a failed write is logged and swallowed. */
    method SaveSessionsLocally(m: Sessions, writeFails: bool)
      modifies this
      ensures State() == if writeFails then old(State()) else old(State()).(sessions := Holds(m))
    {
      if !writeFails {
        sessions := Holds(m);
      }
    }

    /**
     * `saveSessionLocally(date, session)`: read the map (`{}` when that read
     * fails), set one date, write the map back.
     */
    method SaveSessionLocally(date: string, session: SessionData, readFails: bool, writeFails: bool)
      modifies this
      ensures State() == if writeFails then old(State())
                         else old(State()).(sessions := Holds(ReadLocalSessions(old(State()), readFails)[date := session]))
      ensures !writeFails ==> date in GetLocalSessions(State()) && GetLocalSessions(State())[date] == session
    {
      var current := ReadLocalSessions(State(), readFails);
      current := current[date := session];
      SaveSessionsLocally(current, writeFails);
    }

    /** `setLastSyncTime(time)`: stores `time.toString()`; a failed write is swallowed. */
    method SetLastSyncTime(time: int, writeFails: bool)
      modifies this
      ensures State() == if writeFails then old(State()) else old(State()).(lastSync := Holds(Show(time)))
      ensures !writeFails ==> GetLastSyncTime(State()) == Num(time)
    {
      if !writeFails {
        lastSync := Holds(Show(time));
        LastSyncRoundTrip(old(State()), time);
      }
    }
  }

  // ---------------------------------------------------------------------
  // Reconciliation

  /** `{ ...remoteSessions, ...localSessions }`: the union of both, the local record winning on a shared date. */
  function MergeSessions(remote: Sessions, local: Sessions): (merged: Sessions)
    ensures merged.Keys == remote.Keys + local.Keys
    ensures forall d :: d in local ==> merged[d] == local[d]
    ensures forall d :: d in remote && d !in local ==> merged[d] == remote[d]
  {
    remote + local
  }

  /** Merging the merged map with the same remote map again changes nothing. */
  lemma MergeIdempotent(remote: Sessions, local: Sessions)
    ensures MergeSessions(remote, MergeSessions(remote, local)) == MergeSessions(remote, local)
  {
    var m := MergeSessions(remote, local);
    assert MergeSessions(remote, m).Keys == m.Keys;
  }

  /** `new Date(a) > new Date(b)`: false whenever either date is invalid. */
  predicate IsLater(a: Instant, b: Instant) {
    a.At? && b.At? && a.millis > b.millis
  }

  /** The profile kept by a sync: the local one only if strictly later, otherwise the remote one. */
  function NewerProfile(local: UserProfile, remote: UserProfile): (winner: UserProfile)
    ensures winner == local || winner == remote
    ensures winner == local && local != remote ==> IsLater(local.createdAt, remote.createdAt)
  {
    if IsLater(local.createdAt, remote.createdAt) then local else remote
  }

  /**
   * Last-writer-wins on `createdAt`: the winner is one of the two; with two
   * valid and different dates it is the later one whichever side it is on;
   * a tie or an invalid date goes to the remote profile.
   */
  lemma NewerProfileIsLastWriter(local: UserProfile, remote: UserProfile)
    ensures NewerProfile(local, remote) == local || NewerProfile(local, remote) == remote
    ensures local.createdAt.At? && remote.createdAt.At? && local.createdAt.millis != remote.createdAt.millis ==>
      NewerProfile(local, remote) == NewerProfile(remote, local)
    ensures NewerProfile(local, remote) == local && local != remote ==> IsLater(local.createdAt, remote.createdAt)
    ensures !IsLater(local.createdAt, remote.createdAt) ==> NewerProfile(local, remote) == remote
  {
  }

  /** The records of `local` on the given dates. */
  function Restrict(local: Sessions, dates: set<string>): (r: Sessions)
    requires dates <= local.Keys
    ensures r.Keys == dates && forall d :: d in r ==> r[d] == local[d]
  {
    map d | d in dates :: local[d]
  }

  /** The tree after `saveSession(uid, d, local[d])` for every `d` in `dates`. */
  function PushSessions(tree: Tree, uid: string, local: Sessions, dates: set<string>): (r: Tree)
    requires dates <= local.Keys
    ensures forall u :: u != uid ==> (u in r <==> u in tree)
    ensures forall u :: u != uid && u in tree ==> r[u] == tree[u]
    ensures dates != {} ==> uid in r && r[uid].profile == UserAt(tree, uid).profile
  {
    if dates == {} then tree
    else
      var user := UserAt(tree, uid);
      tree[uid := user.(sessions := user.sessions + Restrict(local, dates))]
  }

  /** One more successful push extends the set of pushed dates by one. */
  lemma PushOneMore(tree: Tree, uid: string, local: Sessions, dates: set<string>, date: string)
    requires dates <= local.Keys && date in local
    ensures Set(PushSessions(tree, uid, local, dates), SessionAt(uid, date), SessionNode(local[date]))
         == PushSessions(tree, uid, local, dates + {date})
  {
    var sessions := UserAt(tree, uid).sessions;
    if dates == {} {
      assert dates + {date} == {date};
      assert sessions[date := local[date]] == sessions + Restrict(local, {date});
    } else {
      assert (sessions + Restrict(local, dates))[date := local[date]] == sessions + Restrict(local, dates + {date});
    }
  }

  /**
   * What the pushes do to the reads: `uid`'s collection takes the pushed
   * records on their dates and keeps the rest; other users and all profiles
   * are untouched.
   */
  lemma PushedSessions(tree: Tree, uid: string, local: Sessions, dates: set<string>)
    requires dates <= local.Keys
    ensures GetAllSessions(PushSessions(tree, uid, local, dates), uid) == GetAllSessions(tree, uid) + Restrict(local, dates)
    ensures forall u :: u != uid ==> GetAllSessions(PushSessions(tree, uid, local, dates), u) == GetAllSessions(tree, u)
    ensures forall u :: GetUserProfile(PushSessions(tree, uid, local, dates), u) == GetUserProfile(tree, u)
  {
    if dates == {} {
      assert Restrict(local, dates) == map[];
      assert GetAllSessions(tree, uid) + map[] == GetAllSessions(tree, uid);
    }
  }

  /**
   * Which remote and local operations fail during one sync. Remote failures
   * reject their promise; local write failures are swallowed by the save
   * helpers.
   */
  datatype SyncFaults = SyncFaults(
    remoteReadFails: bool,          // getAllSessions or getUserProfile rejects
    sessionsReadFails: bool,        // this call's read of the local sessions rejects (caught: {})
    profileReadFails: bool,         // this call's read of the local profile rejects (caught: null)
    rejectedPushes: set<string>,    // the dates whose saveSession rejects
    remoteProfileWriteFails: bool,  // saveUserProfile rejects
    sessionsWriteFails: bool,       // saving the merged map locally fails
    profileWriteFails: bool,        // saving the winning profile locally fails
    lastSyncWriteFails: bool)       // saving the last-sync time fails

  const NoFaults := SyncFaults(false, false, false, {}, false, false, false, false)

  /**
   * How a sync call ended: it returned at once (offline), its catch block
   * logged an error and returned (aborted), or it reached `setLastSyncTime`
   * (completed). No error escapes in any case.
   */
  datatype SyncStatus = Offline | Aborted | Completed

  datatype SyncResult = SyncResult(local: LocalState, tree: Tree, status: SyncStatus)

  /** The stamping step: `setLastSyncTime(now)`. */
  function Stamp(s: LocalState, now: int, f: SyncFaults): LocalState {
    if f.lastSyncWriteFails then s else s.(lastSync := Holds(Show(now)))
  }

  /** `syncWithFirebase(uid, isOnline)` with the clock reading `now`, as a function of both stores. */
  function Sync(s: LocalState, tree: Tree, uid: string, isOnline: bool, now: int, f: SyncFaults): (r: SyncResult)
    ensures r.status == Offline <==> !isOnline
    ensures r.status != Completed ==> r.local.lastSync == s.lastSync
    ensures r.local.lastSync != s.lastSync ==> r.local.lastSync == Holds(Show(now))
  {
    if !isOnline then SyncResult(s, tree, Offline)
    else if f.remoteReadFails then SyncResult(s, tree, Aborted)
    else
      var localSessions := ReadLocalSessions(s, f.sessionsReadFails);
      var localProfile := ReadLocalProfile(s, f.profileReadFails);
      var remoteProfile := GetUserProfile(tree, uid);
      var merged := MergeSessions(GetAllSessions(tree, uid), localSessions);
      var s1 := if f.sessionsWriteFails then s else s.(sessions := Holds(merged));
      var tree1 := PushSessions(tree, uid, localSessions, localSessions.Keys - f.rejectedPushes);
      if localSessions.Keys * f.rejectedPushes != {} then SyncResult(s1, tree1, Aborted)
      else if localProfile.Some? && remoteProfile.Some? then
        var winner := NewerProfile(localProfile.value, remoteProfile.value);
        var s2 := if f.profileWriteFails then s1 else s1.(profile := Holds(winner));
        if f.remoteProfileWriteFails then SyncResult(s2, tree1, Aborted)
        else SyncResult(Stamp(s2, now, f), Set(tree1, ProfileAt(uid), ProfileNode(winner)), Completed)
      else SyncResult(Stamp(s1, now, f), tree1, Completed)
  }

  /**
   * The pushes of `syncWithFirebase`: `saveSession(uid, date, session)` for
   * every local entry; a rejected push is remembered and the others still
   * land.
   */
  method PushLocalSessions(remote: RemoteDatabase, uid: string, localSessions: Sessions, rejectedPushes: set<string>)
    returns (rejected: bool)
    modifies remote
    ensures remote.tree == PushSessions(old(remote.tree), uid, localSessions, localSessions.Keys - rejectedPushes)
    ensures rejected <==> localSessions.Keys * rejectedPushes != {}
  {
    var pending := localSessions.Keys;
    rejected := false;
    while pending != {}
      invariant pending <= localSessions.Keys
      invariant remote.tree == PushSessions(old(remote.tree), uid, localSessions, (localSessions.Keys - pending) - rejectedPushes)
      invariant rejected <==> (localSessions.Keys - pending) * rejectedPushes != {}
      decreases pending
    {
      var date :| date in pending;
      if date in rejectedPushes {
        rejected := true;
        assert (localSessions.Keys - (pending - {date})) - rejectedPushes
            == (localSessions.Keys - pending) - rejectedPushes;
      } else {
        PushOneMore(old(remote.tree), uid, localSessions, (localSessions.Keys - pending) - rejectedPushes, date);
        remote.SaveSession(uid, date, localSessions[date]);
        assert (localSessions.Keys - (pending - {date})) - rejectedPushes
            == ((localSessions.Keys - pending) - rejectedPushes) + {date};
      }
      pending := pending - {date};
    }
    assert localSessions.Keys - pending == localSessions.Keys;
  }

  /** `syncWithFirebase`: the steps in source order, the parallel writes taken one after another. */
  method SyncWithFirebase(local: LocalStore, remote: RemoteDatabase, uid: string, isOnline: bool, now: int, faults: SyncFaults)
    returns (status: SyncStatus)
    modifies local, remote
    ensures SyncResult(local.State(), remote.tree, status)
         == Sync(old(local.State()), old(remote.tree), uid, isOnline, now, faults)
  {
    if !isOnline {
      return Offline;
    }
    if faults.remoteReadFails {
      return Aborted;
    }
    var localSessions := ReadLocalSessions(local.State(), faults.sessionsReadFails);
    var remoteSessions := GetAllSessions(remote.tree, uid);
    var localProfile := ReadLocalProfile(local.State(), faults.profileReadFails);
    var remoteProfile := GetUserProfile(remote.tree, uid);

    var merged := MergeSessions(remoteSessions, localSessions);
    local.SaveSessionsLocally(merged, faults.sessionsWriteFails);
    ghost var s1 := local.State();

    var rejected := PushLocalSessions(remote, uid, localSessions, faults.rejectedPushes);
    if rejected {
      return Aborted;
    }

    if localProfile.Some? && remoteProfile.Some? {
      var winner := NewerProfile(localProfile.value, remoteProfile.value);
      local.SaveProfileLocally(winner, faults.profileWriteFails);
      if faults.remoteProfileWriteFails {
        return Aborted;
      }
      remote.SaveUserProfile(uid, winner);
    }

    local.SetLastSyncTime(now, faults.lastSyncWriteFails);
    status := Completed;
  }

  // ---------------------------------------------------------------------
  // Properties of a sync

  /** Offline, a sync touches neither store. */
  lemma SyncOfflineChangesNothing(s: LocalState, tree: Tree, uid: string, now: int, f: SyncFaults)
    ensures Sync(s, tree, uid, false, now, f) == SyncResult(s, tree, Offline)
  {
  }

  /** When the remote reads fail, a sync touches neither store. */
  lemma SyncUnreachableChangesNothing(s: LocalState, tree: Tree, uid: string, now: int, f: SyncFaults)
    requires f.remoteReadFails
    ensures Sync(s, tree, uid, true, now, f) == SyncResult(s, tree, Aborted)
  {
  }

  /**
   * Once the remote reads succeed, the local session map becomes remote ∪
   * local with the local record winning on a shared date, whatever happens
   * to the pushes afterwards.
   */
  lemma SyncMergesSessionsLocally(s: LocalState, tree: Tree, uid: string, now: int, f: SyncFaults)
    requires !f.remoteReadFails && !f.sessionsWriteFails
    ensures var after := GetLocalSessions(Sync(s, tree, uid, true, now, f).local);
      && after.Keys == GetAllSessions(tree, uid).Keys + ReadLocalSessions(s, f.sessionsReadFails).Keys
      && (forall d :: d in ReadLocalSessions(s, f.sessionsReadFails) ==> after[d] == ReadLocalSessions(s, f.sessionsReadFails)[d])
      && (forall d :: d in after && d !in ReadLocalSessions(s, f.sessionsReadFails) ==> after[d] == GetAllSessions(tree, uid)[d])
  {
  }

  /**
   * Every local record whose push was not rejected is on the remote under its
   * own date; dates the device does not hold keep their remote record; other
   * users' records are untouched.
   */
  lemma SyncPushesLocalSessions(s: LocalState, tree: Tree, uid: string, now: int, f: SyncFaults)
    requires !f.remoteReadFails
    ensures var remoteAfter := GetAllSessions(Sync(s, tree, uid, true, now, f).tree, uid);
      && (forall d :: d in ReadLocalSessions(s, f.sessionsReadFails) && d !in f.rejectedPushes ==>
            d in remoteAfter && remoteAfter[d] == ReadLocalSessions(s, f.sessionsReadFails)[d])
      && (forall d :: d !in ReadLocalSessions(s, f.sessionsReadFails) ==>
            (d in remoteAfter <==> d in GetAllSessions(tree, uid))
            && (d in remoteAfter ==> remoteAfter[d] == GetAllSessions(tree, uid)[d]))
    ensures forall u :: u != uid ==>
      GetAllSessions(Sync(s, tree, uid, true, now, f).tree, u) == GetAllSessions(tree, u)
  {
    var local := ReadLocalSessions(s, f.sessionsReadFails);
    PushedSessions(tree, uid, local, local.Keys - f.rejectedPushes);
  }

  /**
   * The profile is reconciled only when both sides hold one: then the winner
   * (local only if strictly later) is stored on both sides; otherwise neither
   * profile changes.
   */
  lemma SyncReconcilesProfile(s: LocalState, tree: Tree, uid: string, now: int, f: SyncFaults)
    requires !f.remoteReadFails && ReadLocalSessions(s, f.sessionsReadFails).Keys * f.rejectedPushes == {}
    ensures var r := Sync(s, tree, uid, true, now, f);
      var lp, rp := ReadLocalProfile(s, f.profileReadFails), GetUserProfile(tree, uid);
      && (lp.Some? && rp.Some? && !f.profileWriteFails ==>
            GetLocalProfile(r.local) == Some(NewerProfile(lp.value, rp.value)))
      && (lp.Some? && rp.Some? && !f.remoteProfileWriteFails ==>
            GetUserProfile(r.tree, uid) == Some(NewerProfile(lp.value, rp.value)))
      && (lp.None? || rp.None? ==>
            r.local.profile == s.profile && GetUserProfile(r.tree, uid) == rp)
  {
    var local := ReadLocalSessions(s, f.sessionsReadFails);
    PushedSessions(tree, uid, local, local.Keys - f.rejectedPushes);
  }

  /**
   * The last-sync time moves only on a completed sync, and then reads back
   * as `now`; no path of the sync lets an error escape.
   */
  lemma SyncStampsOnlyWhenCompleted(s: LocalState, tree: Tree, uid: string, isOnline: bool, now: int, f: SyncFaults)
    ensures var r := Sync(s, tree, uid, isOnline, now, f);
      && (r.local.lastSync != s.lastSync ==> r.status == Completed)
      && (r.status == Completed && !f.lastSyncWriteFails ==> GetLastSyncTime(r.local) == Num(now))
      && (r.status == Completed <==>
            isOnline && !f.remoteReadFails && ReadLocalSessions(s, f.sessionsReadFails).Keys * f.rejectedPushes == {}
            && (ReadLocalProfile(s, f.profileReadFails).Some? && GetUserProfile(tree, uid).Some? ==> !f.remoteProfileWriteFails))
  {
    var r := Sync(s, tree, uid, isOnline, now, f);
    if r.status == Completed && !f.lastSyncWriteFails {
      assert r.local.lastSync == Holds(Show(now));
      LastSyncRoundTrip(r.local, now);
      assert r.local.(lastSync := Holds(Show(now))) == r.local;
    }
  }

  /**
   * A completed sync whose local writes all succeed leaves both sides with
   * the same session collection, and with the same profile when both had
   * one.
   */
  lemma SyncConverges(s: LocalState, tree: Tree, uid: string, now: int, f: SyncFaults)
    requires !f.sessionsWriteFails && !f.profileWriteFails
    requires Sync(s, tree, uid, true, now, f).status == Completed
    ensures var r := Sync(s, tree, uid, true, now, f);
      && GetLocalSessions(r.local) == GetAllSessions(r.tree, uid)
      && (ReadLocalProfile(s, f.profileReadFails).Some? && GetUserProfile(tree, uid).Some? ==>
            GetLocalProfile(r.local) == GetUserProfile(r.tree, uid))
  {
    var local := ReadLocalSessions(s, f.sessionsReadFails);
    var r := Sync(s, tree, uid, true, now, f);
    assert local.Keys * f.rejectedPushes == {};
    forall d | d in local.Keys ensures d !in f.rejectedPushes {
      assert d !in local.Keys * f.rejectedPushes;
    }
    assert local.Keys - f.rejectedPushes == local.Keys;
    SyncPushesLocalSessions(s, tree, uid, now, f);
    SyncMergesSessionsLocally(s, tree, uid, now, f);
    var a, b := GetLocalSessions(r.local), GetAllSessions(r.tree, uid);
    forall d ensures d in a <==> d in b {
    }
    forall d | d in a ensures a[d] == b[d] {
    }
    SyncReconcilesProfile(s, tree, uid, now, f);
  }

  /**
   * A one-off failure of the local sessions read during a sync overwrites
   * the stored map with the remote collection: every local-only date is
   * lost on the device, and none of them was pushed.
   */
  lemma SyncAfterFailedReadLosesLocalOnly(s: LocalState, tree: Tree, uid: string, now: int, f: SyncFaults)
    requires !f.remoteReadFails && f.sessionsReadFails && !f.sessionsWriteFails
    ensures var r := Sync(s, tree, uid, true, now, f);
      && GetLocalSessions(r.local) == GetAllSessions(tree, uid)
      && GetAllSessions(r.tree, uid) == GetAllSessions(tree, uid)
      && forall d :: d in GetLocalSessions(s) && d !in GetAllSessions(tree, uid) ==>
           d !in GetLocalSessions(r.local) && d !in GetAllSessions(r.tree, uid)
  {
    var r := Sync(s, tree, uid, true, now, f);
    assert MergeSessions(GetAllSessions(tree, uid), map[]) == GetAllSessions(tree, uid);
    assert r.local.sessions == Holds(GetAllSessions(tree, uid));
    SyncPushesLocalSessions(s, tree, uid, now, f);
  }

  /**
   * Two syncs in a row with nothing failing: the second writes nothing new
   * to the remote and leaves the local profile and sessions as the first
   * left them.
   */
  lemma SyncTwiceIsIdempotent(s: LocalState, tree: Tree, uid: string, now1: int, now2: int)
    ensures var r1 := Sync(s, tree, uid, true, now1, NoFaults);
      var r2 := Sync(r1.local, r1.tree, uid, true, now2, NoFaults);
      && r2.status == Completed
      && r2.tree == r1.tree
      && r2.local.sessions == r1.local.sessions
      && r2.local.profile == r1.local.profile
  {
    var r1 := Sync(s, tree, uid, true, now1, NoFaults);
    SyncConverges(s, tree, uid, now1, NoFaults);
    SyncReconcilesProfile(s, tree, uid, now1, NoFaults);
    SyncOnConvergedStores(r1.local, r1.tree, uid, now2);
  }

  /**
   * A fault-free sync of stores that already agree (the same sessions, and
   * the same profile when both hold one) completes and changes nothing but
   * the last-sync time.
   */
  lemma SyncOnConvergedStores(s: LocalState, tree: Tree, uid: string, now: int)
    requires s.sessions.Holds? && GetLocalSessions(s) == GetAllSessions(tree, uid)
    requires GetLocalProfile(s).Some? && GetUserProfile(tree, uid).Some? ==> GetLocalProfile(s) == GetUserProfile(tree, uid)
    ensures var r := Sync(s, tree, uid, true, now, NoFaults);
      && r.status == Completed
      && r.tree == tree
      && r.local.sessions == s.sessions
      && r.local.profile == s.profile
  {
    var m := GetLocalSessions(s);
    assert m.Keys - {} == m.Keys;
    if m != map[] {
      assert uid in tree;
      assert tree[uid].sessions + Restrict(m, m.Keys) == tree[uid].sessions;
    }
    assert PushSessions(tree, uid, m, m.Keys - NoFaults.rejectedPushes) == tree;
    assert MergeSessions(m, m) == m;
    var lp, rp := GetLocalProfile(s), GetUserProfile(tree, uid);
    if lp.Some? && rp.Some? {
      assert NewerProfile(lp.value, rp.value) == rp.value;
      assert uid in tree;
      assert Set(tree, ProfileAt(uid), ProfileNode(rp.value)) == tree;
    }
  }
}
