/**
 * The collaboration store of an open project: the current user's role, the
 * project's collaborators keyed by user id (each with a presence flag and a
 * highlight colour from a fixed palette) and the gate locks keyed by gate
 * id. Both maps are JavaScript `Map`s, so they keep insertion order.
 *
 * `Date.now()` is a parameter.
 */
module CollaborationStore {
  import opened Wrappers
  import opened JsMap

  datatype Role = Owner | Editor | Viewer

  /** A user's permission on the project (the optional name and avatar fields omitted). */
  datatype Permission = Permission(userId: string, email: string, role: Role)

  datatype Collaborator = Collaborator(userId: string, email: string, role: Role, isOnline: bool, lastSeen: Option<int>, color: string)

  /** Who holds a gate. */
  datatype Lock = Lock(userId: string, userName: string, color: string)

  datatype CollaborationState = CollaborationState(
    projectId: Option<string>,
    myRole: Option<Role>,
    collaborators: OrderedMap<string, Collaborator>,
    lockedGates: OrderedMap<string, Lock>)
  {
    ghost predicate Valid() {
      collaborators.Valid() && lockedGates.Valid()
    }
  }

  function Cleared(): (s: CollaborationState)
    ensures s.Valid() && s.projectId.None? && s.myRole.None?
    ensures s.collaborators.entries == map[] && s.lockedGates.entries == map[]
  {
    CollaborationState(None, None, JsMap.Empty(), JsMap.Empty())
  }

  // ---------------------------------------------------------------- colours

  /** `COLLABORATOR_COLORS`. */
  const Palette: seq<string> := ["#ef4444", "#3b82f6", "#10b981", "#f59e0b", "#8b5cf6",
                                 "#ec4899", "#06b6d4", "#f97316", "#14b8a6", "#a855f7"]

  lemma PaletteDistinct()
    ensures |Palette| == 10 && Distinct(Palette)
  {
  }

  /** The palette colours not yet taken, in palette order. */
  function Available(palette: seq<string>, taken: set<string>): (r: seq<string>)
    ensures forall c :: c in r <==> c in palette && c !in taken
  {
    if palette == [] then []
    else
      assert forall c :: c in palette <==> c == palette[0] || c in palette[1..];
      (if palette[0] in taken then [] else [palette[0]]) + Available(palette[1..], taken)
  }

  /** The sum of the user id's character codes. */
  function CharSum(s: string): (r: nat) {
    if s == [] then 0 else CharSum(s[..|s| - 1]) + (s[|s| - 1] as int)
  }

  /**
   * `assignColor`: the first palette colour nobody has yet; when every
   * colour is taken, the colour the character sum of the user id picks.
   */
  function AssignColor(userId: string, taken: set<string>): (c: string)
    ensures c in Palette
    ensures Available(Palette, taken) != [] ==> c == Available(Palette, taken)[0] && c !in taken
    ensures Available(Palette, taken) == [] ==> c == Palette[CharSum(userId) % |Palette|]
  {
    var available := Available(Palette, taken);
    if |available| > 0 then
      assert available[0] in available;
      available[0]
    else Palette[CharSum(userId) % |Palette|]
  }

  /** The colour picked while one is free comes before every other free colour in the palette. */
  lemma {:induction false} FirstAvailableIsFirstFree(palette: seq<string>, taken: set<string>, i: int)
    requires Available(palette, taken) != [] && 0 <= i < |palette| && palette[i] !in taken
    ensures exists j | 0 <= j <= i :: palette[j] == Available(palette, taken)[0]
  {
    if palette[0] !in taken {
    } else {
      assert palette[1..][i - 1] == palette[i];
      FirstAvailableIsFirstFree(palette[1..], taken, i - 1);
      var j :| 0 <= j <= i - 1 && palette[1..][j] == Available(palette[1..], taken)[0];
      assert palette[j + 1] == palette[1..][j];
    }
  }

  /** With the first `i` palette colours taken and no other, the next one is picked. */
  lemma AssignNextColor(userId: string, i: nat)
    requires i < |Palette|
    ensures AssignColor(userId, set k | 0 <= k < i :: Palette[k]) == Palette[i]
  {
    var taken := set k | 0 <= k < i :: Palette[k];
    PaletteDistinct();
    PrefixTakenAvailable(Palette, taken, i);
  }

  lemma {:induction false} PrefixTakenAvailable(palette: seq<string>, taken: set<string>, i: nat)
    requires Distinct(palette) && i < |palette|
    requires forall k | 0 <= k < |palette| :: palette[k] in taken <==> k < i
    ensures Available(palette, taken) == palette[i..]
  {
    if i == 0 {
      NoneTakenAvailable(palette, taken);
    } else {
      DistinctTail(palette);
      forall k | 0 <= k < |palette| - 1
        ensures palette[1..][k] in taken <==> k < i - 1
      {
        assert palette[1..][k] == palette[k + 1];
      }
      PrefixTakenAvailable(palette[1..], taken, i - 1);
      assert palette[1..][i - 1..] == palette[i..];
    }
  }

  lemma {:induction false} NoneTakenAvailable(palette: seq<string>, taken: set<string>)
    requires forall k | 0 <= k < |palette| :: palette[k] !in taken
    ensures Available(palette, taken) == palette
  {
    if palette != [] {
      forall k | 0 <= k < |palette| - 1
        ensures palette[1..][k] !in taken
      {
        assert palette[1..][k] == palette[k + 1];
      }
      NoneTakenAvailable(palette[1..], taken);
    }
  }

  // ---------------------------------------------------------- initialise

  /** The colour each permission receives, in order, each taking the colours handed out before it as used. */
  function Assigned(perms: seq<Permission>): (cs: seq<string>)
    ensures |cs| == |perms|
  {
    if perms == [] then []
    else
      var prev := Assigned(perms[..|perms| - 1]);
      prev + [AssignColor(perms[|perms| - 1].userId, set c | c in prev)]
  }

  /** The first ten collaborators get the palette's colours in order, so no two share one. */
  lemma {:induction false} AssignedFollowsPalette(perms: seq<Permission>)
    requires |perms| <= |Palette|
    ensures Assigned(perms) == Palette[..|perms|]
  {
    if perms != [] {
      var n := |perms| - 1;
      AssignedFollowsPalette(perms[..n]);
      var cs := Assigned(perms);
      AssignedSplit(perms);
      AssignedNext(perms);
      PrefixGrows(Palette, cs[..n], cs[n], n);
      assert cs == cs[..n] + [cs[n]];
    }
  }

  /** The colours handed out to a prefix are the first colours handed out to the whole list. */
  lemma AssignedSplit(perms: seq<Permission>)
    requires perms != []
    ensures Assigned(perms)[..|perms| - 1] == Assigned(perms[..|perms| - 1])
  {
  }

  /** With the first n palette colours handed out, the next collaborator gets colour n. */
  lemma AssignedNext(perms: seq<Permission>)
    requires perms != [] && |perms| <= |Palette|
    requires Assigned(perms[..|perms| - 1]) == Palette[..|perms| - 1]
    ensures Assigned(perms)[|perms| - 1] == Palette[|perms| - 1]
  {
    var n := |perms| - 1;
    var color := AssignColor(perms[n].userId, set c | c in Assigned(perms[..n]));
    assert Assigned(perms)[n] == color by {
      AssignedLast(perms);
    }
    assert color == Palette[n] by {
      ColorAfterPrefix(perms[n].userId, Assigned(perms[..n]), n);
    }
  }

  lemma AssignedLast(perms: seq<Permission>)
    requires perms != []
    ensures var n := |perms| - 1;
            Assigned(perms)[n] == AssignColor(perms[n].userId, set c | c in Assigned(perms[..n]))
  {
  }

  /** Once the first n palette colours are in use, colour n is the one picked. */
  lemma ColorAfterPrefix(userId: string, prev: seq<string>, n: nat)
    requires n < |Palette| && prev == Palette[..n]
    ensures AssignColor(userId, set c | c in prev) == Palette[n]
  {
    TakenPrefix(prev, n);
    AssignNextColor(userId, n);
  }

  lemma PrefixGrows(xs: seq<string>, prev: seq<string>, c: string, n: nat)
    requires n < |xs| && prev == xs[..n] && c == xs[n]
    ensures prev + [c] == xs[..n + 1]
  {
  }

  lemma TakenPrefix(prev: seq<string>, n: nat)
    requires n <= |Palette| && prev == Palette[..n]
    ensures (set c | c in prev) == (set k | 0 <= k < n :: Palette[k])
  {
    forall c | c in prev
      ensures c in (set k | 0 <= k < n :: Palette[k])
    {
      var k :| 0 <= k < n && prev[k] == c;
    }
    forall k | 0 <= k < n
      ensures Palette[k] in prev
    {
      assert prev[k] == Palette[k];
    }
  }

  function Joined(p: Permission, isOnline: bool, color: string): Collaborator {
    Collaborator(p.userId, p.email, p.role, isOnline, None, color)
  }

  /** The collaborator map `initializeCollaboration` builds: everyone offline with their assigned colour. */
  function Roster(perms: seq<Permission>): (m: OrderedMap<string, Collaborator>)
    ensures m.Valid()
  {
    RosterOf(perms, Assigned(perms))
  }

  /** The roster built from the permissions, the i-th joining with the i-th colour given. */
  function RosterOf(perms: seq<Permission>, colors: seq<string>): (m: OrderedMap<string, Collaborator>)
    requires |colors| == |perms|
    ensures m.Valid()
  {
    if perms == [] then JsMap.Empty()
    else
      var n := |perms| - 1;
      RosterOf(perms[..n], colors[..n]).Set(perms[n].userId, Joined(perms[n], false, colors[n]))
  }

  /** The roster is keyed by exactly the user ids the permissions name. */
  lemma RosterKeys(perms: seq<Permission>)
    ensures forall u :: u in Roster(perms).entries <==> exists p <- perms :: p.userId == u
  {
    RosterOfKeys(perms, Assigned(perms));
  }

  lemma {:induction false} RosterOfKeys(perms: seq<Permission>, colors: seq<string>)
    requires |colors| == |perms|
    ensures forall u :: u in RosterOf(perms, colors).entries <==> exists p <- perms :: p.userId == u
  {
    if perms != [] {
      var n := |perms| - 1;
      RosterOfKeys(perms[..n], colors[..n]);
      assert forall p <- perms :: p == perms[n] || p in perms[..n];
      assert forall p <- perms[..n] :: p in perms;
    }
  }

  /** Every colour handed out is a palette colour. */
  lemma {:induction false} AssignedInPalette(perms: seq<Permission>)
    ensures forall c <- Assigned(perms) :: c in Palette
  {
    if perms != [] {
      AssignedInPalette(perms[..|perms| - 1]);
    }
  }

  /** After initialising, nobody is online and every collaborator carries one of the palette's colours. */
  lemma RosterOffline(perms: seq<Permission>)
    ensures forall u <- Roster(perms).entries :: !Roster(perms).entries[u].isOnline && Roster(perms).entries[u].color in Palette
  {
    AssignedInPalette(perms);
    RosterOfOffline(perms, Assigned(perms));
  }

  lemma {:induction false} RosterOfOffline(perms: seq<Permission>, colors: seq<string>)
    requires |colors| == |perms|
    ensures forall u <- RosterOf(perms, colors).entries :: !RosterOf(perms, colors).entries[u].isOnline && RosterOf(perms, colors).entries[u].color in colors
  {
    if perms != [] {
      var n := |perms| - 1;
      RosterOfOffline(perms[..n], colors[..n]);
      assert forall c <- colors[..n] :: c in colors;
    }
  }

  /** A collaborator's entry is built from the last permission listed for that user. */
  lemma RosterEntry(perms: seq<Permission>, i: nat)
    requires i < |perms| && forall j | i < j < |perms| :: perms[j].userId != perms[i].userId
    ensures perms[i].userId in Roster(perms).entries
    ensures Roster(perms).entries[perms[i].userId] == Joined(perms[i], false, Assigned(perms)[i])
  {
    RosterOfEntry(perms, Assigned(perms), i);
  }

  lemma {:induction false} RosterOfEntry(perms: seq<Permission>, colors: seq<string>, i: nat)
    requires |colors| == |perms|
    requires i < |perms| && forall j | i < j < |perms| :: perms[j].userId != perms[i].userId
    ensures perms[i].userId in RosterOf(perms, colors).entries
    ensures RosterOf(perms, colors).entries[perms[i].userId] == Joined(perms[i], false, colors[i])
  {
    var n := |perms| - 1;
    if i < n {
      assert perms[..n][i] == perms[i] && colors[..n][i] == colors[i];
      RosterOfEntry(perms[..n], colors[..n], i);
    }
  }

  /** `initializeCollaboration`: the project and role are set, locks are cleared and the roster is rebuilt. */
  function Initialize(projectId: string, myRole: Role, perms: seq<Permission>): (s: CollaborationState)
    ensures s.Valid() && s.projectId == Some(projectId) && s.myRole == Some(myRole)
    ensures s.lockedGates.entries == map[] && s.collaborators == Roster(perms)
  {
    CollaborationState(Some(projectId), Some(myRole), Roster(perms), JsMap.Empty())
  }

  // ----------------------------------------------------- add and remove

  /** The colours the current collaborators hold. */
  function ColorsIn(m: OrderedMap<string, Collaborator>): set<string> {
    set u | u in m.entries :: m.entries[u].color
  }

  /** `addCollaborator`: (re)adds the user with a colour none of the current collaborators holds, while one is free. */
  function Added(s: CollaborationState, p: Permission, isOnline: bool): (r: CollaborationState)
    requires s.Valid()
    ensures r.Valid() && r.lockedGates == s.lockedGates && r.myRole == s.myRole && r.projectId == s.projectId
    ensures r.collaborators.entries.Keys == s.collaborators.entries.Keys + {p.userId}
    ensures var c := r.collaborators.entries[p.userId];
            c.isOnline == isOnline && c.role == p.role && c.color in Palette
            && (Available(Palette, ColorsIn(s.collaborators)) != [] ==> c.color !in ColorsIn(s.collaborators))
    ensures var c := r.collaborators.entries[p.userId];
            c.userId == p.userId && c.email == p.email && c.lastSeen.None?
            && c.color == AssignColor(p.userId, ColorsIn(s.collaborators))
    ensures forall u <- s.collaborators.entries | u != p.userId :: r.collaborators.entries[u] == s.collaborators.entries[u]
    ensures p.userId in s.collaborators.keys ==> r.collaborators.keys == s.collaborators.keys
    ensures p.userId !in s.collaborators.keys ==> r.collaborators.keys == s.collaborators.keys + [p.userId]
  {
    var color := AssignColor(p.userId, ColorsIn(s.collaborators));
    s.(collaborators := s.collaborators.Set(p.userId, Joined(p, isOnline, color)))
  }

  /**
   * The locks left after deleting, among the gate ids `gs`, those whose
   * lock in `m` is held by `u` (`forEach` over the entries snapshot).
   */
  function ReleaseFrom(m: OrderedMap<string, Lock>, gs: seq<string>, u: string): (r: OrderedMap<string, Lock>)
    requires m.Valid()
    ensures r.Valid()
    ensures forall g :: g in r.entries <==> g in m.entries && !(g in gs && m.entries[g].userId == u)
    ensures forall g <- r.entries :: r.entries[g] == m.entries[g]
  {
    if gs == [] then m
    else
      var n := |gs| - 1;
      var prev := ReleaseFrom(m, gs[..n], u);
      assert forall g :: g in gs <==> g in gs[..n] || g == gs[n];
      if gs[n] in m.entries && m.entries[gs[n]].userId == u then prev.Delete(gs[n]) else prev
  }

  /** The `forEach` of `removeCollaborator` over a snapshot of the locks, deleting those `u` holds. */
  method ReleaseLocks(snapshot: OrderedMap<string, Lock>, u: string) returns (locks: OrderedMap<string, Lock>)
    requires snapshot.Valid()
    ensures locks == ReleaseFrom(snapshot, snapshot.keys, u)
  {
    locks := snapshot;
    var gs := snapshot.keys;
    for i := 0 to |gs|
      invariant locks == ReleaseFrom(snapshot, gs[..i], u)
    {
      assert gs[..i + 1][..i] == gs[..i];
      if snapshot.entries[gs[i]].userId == u {
        locks := locks.Delete(gs[i]);
      }
    }
    assert gs[..|gs|] == gs;
  }

  /** `removeCollaborator`: the user leaves the roster and exactly the gates they held are unlocked. */
  function Removed(s: CollaborationState, u: string): (r: CollaborationState)
    requires s.Valid()
    ensures r.Valid() && r.projectId == s.projectId && r.myRole == s.myRole
    ensures r.collaborators.entries == s.collaborators.entries - {u}
    ensures forall g :: g in r.lockedGates.entries <==> g in s.lockedGates.entries && s.lockedGates.entries[g].userId != u
    ensures forall g <- r.lockedGates.entries :: r.lockedGates.entries[g] == s.lockedGates.entries[g]
  {
    var locks := s.lockedGates;
    assert forall g <- locks.entries :: g in locks.keys;
    s.(collaborators := s.collaborators.Delete(u), lockedGates := ReleaseFrom(locks, locks.keys, u))
  }

  // ------------------------------------------------------------- locking

  /** `lockGate`: records the holder, replacing any earlier holder (locks do not exclude each other). */
  function Locked(s: CollaborationState, gateId: string, lock: Lock): (r: CollaborationState)
    requires s.Valid()
    ensures r.Valid() && r.collaborators == s.collaborators
    ensures r.lockedGates.entries == s.lockedGates.entries[gateId := lock]
  {
    s.(lockedGates := s.lockedGates.Set(gateId, lock))
  }

  /** `unlockGate`. */
  function Unlocked(s: CollaborationState, gateId: string): (r: CollaborationState)
    requires s.Valid()
    ensures r.Valid() && r.collaborators == s.collaborators
    ensures r.lockedGates.entries == s.lockedGates.entries - {gateId}
  {
    s.(lockedGates := s.lockedGates.Delete(gateId))
  }

  /** `isGateLocked`. */
  predicate IsGateLocked(s: CollaborationState, gateId: string) {
    s.lockedGates.Has(gateId)
  }

  /** `getGateLock`. */
  function GetGateLock(s: CollaborationState, gateId: string): Option<Lock> {
    if gateId in s.lockedGates.entries then Some(s.lockedGates.entries[gateId]) else None
  }

  /**
   * A gate is locked right after `lockGate` and free right after
   * `unlockGate`; a second `lockGate` by someone else takes the lock over,
   * and neither touches other gates.
   */
  lemma LockUnlock(s: CollaborationState, gateId: string, a: Lock, b: Lock, other: string)
    requires s.Valid() && other != gateId
    ensures IsGateLocked(Locked(s, gateId, a), gateId)
    ensures !IsGateLocked(Unlocked(s, gateId), gateId)
    ensures GetGateLock(Locked(Locked(s, gateId, a), gateId, b), gateId) == Some(b)
    ensures GetGateLock(Locked(s, gateId, a), other) == GetGateLock(s, other)
    ensures GetGateLock(Unlocked(s, gateId), other) == GetGateLock(s, other)
  {
  }

  /** After a user is removed none of the remaining locks is theirs. */
  lemma RemovedHoldsNoLock(s: CollaborationState, u: string)
    requires s.Valid()
    ensures forall g :: GetGateLock(Removed(s, u), g).Some? ==> GetGateLock(Removed(s, u), g).value.userId != u
    ensures forall g :: GetGateLock(s, g).Some? && GetGateLock(s, g).value.userId != u ==> GetGateLock(Removed(s, u), g) == GetGateLock(s, g)
  {
  }

  // --------------------------------------------------------- permissions

  /** `canEdit`: owners and editors may edit. */
  predicate CanEdit(s: CollaborationState) {
    s.myRole == Some(Owner) || s.myRole == Some(Editor)
  }

  /** `isOwner`. */
  predicate IsOwner(s: CollaborationState) {
    s.myRole == Some(Owner)
  }

  /** Builds the roster one permission at a time, collecting the colours handed out. */
  method BuildRoster(perms: seq<Permission>) returns (roster: OrderedMap<string, Collaborator>)
    ensures roster == Roster(perms)
  {
    var existingColors: set<string> := {};
    roster := JsMap.Empty();
    for i := 0 to |perms|
      invariant roster == Roster(perms[..i])
      invariant existingColors == set c | c in Assigned(perms[..i])
    {
      var color := AssignColor(perms[i].userId, existingColors);
      RosterStep(perms, i);
      ColorsAppend(Assigned(perms[..i]), color);
      existingColors := existingColors + {color};
      roster := roster.Set(perms[i].userId, Joined(perms[i], false, color));
    }
    assert perms[..|perms|] == perms;
  }

  lemma ColorsAppend(cs: seq<string>, c: string)
    ensures (set x | x in cs + [c]) == (set x | x in cs) + {c}
  {
  }

  /** One more permission: its user joins with the next colour handed out. */
  lemma RosterStep(perms: seq<Permission>, i: nat)
    requires i < |perms|
    ensures var color := AssignColor(perms[i].userId, set c | c in Assigned(perms[..i]));
            && Assigned(perms[..i + 1]) == Assigned(perms[..i]) + [color]
            && Roster(perms[..i + 1]) == Roster(perms[..i]).Set(perms[i].userId, Joined(perms[i], false, color))
  {
    var q := perms[..i + 1];
    assert q[..i] == perms[..i];
    var cs := Assigned(q);
    assert cs == Assigned(perms[..i]) + [cs[i]];
    assert cs[..i] == Assigned(perms[..i]);
  }

  /** Owners may edit; viewers, and a store with no role yet, may not. */
  lemma PermissionOrder(s: CollaborationState)
    ensures IsOwner(s) ==> CanEdit(s)
    ensures CanEdit(s) <==> s.myRole.Some? && s.myRole.value != Viewer
    ensures IsOwner(s) <==> s.myRole.Some? && s.myRole.value == Owner
  {
  }

  // --------------------------------------------------------------- store

  class Store {
    var projectId: Option<string>
    var myRole: Option<Role>
    var collaborators: OrderedMap<string, Collaborator>
    var lockedGates: OrderedMap<string, Lock>

    function State(): CollaborationState
      reads this
    {
      CollaborationState(projectId, myRole, collaborators, lockedGates)
    }

    ghost predicate Valid()
      reads this
    {
      State().Valid()
    }

    constructor ()
      ensures Valid() && State() == Cleared()
    {
      projectId := None;
      myRole := None;
      collaborators := JsMap.Empty();
      lockedGates := JsMap.Empty();
    }

    /** `initializeCollaboration`: the project and role are set, locks are cleared and the roster is rebuilt. */
    method InitializeCollaboration(project: string, role: Role, perms: seq<Permission>)
      modifies this
      ensures Valid() && State() == Initialize(project, role, perms)
    {
      var roster := BuildRoster(perms);
      projectId, myRole, collaborators, lockedGates := Some(project), Some(role), roster, JsMap.Empty();
    }

    method ClearCollaboration()
      modifies this
      ensures Valid() && State() == Cleared()
    {
      projectId := None;
      myRole := None;
      collaborators := JsMap.Empty();
      lockedGates := JsMap.Empty();
    }

    method AddCollaborator(p: Permission, isOnline: bool)
      requires Valid()
      modifies this
      ensures Valid() && State() == Added(old(State()), p, isOnline)
    {
      var color := AssignColor(p.userId, ColorsIn(collaborators));
      collaborators := collaborators.Set(p.userId, Joined(p, isOnline, color));
    }

    /** Deletes the user, then walks a snapshot of the lock entries deleting the ones they hold. */
    method RemoveCollaborator(u: string)
      requires Valid()
      modifies this
      ensures Valid() && State() == Removed(old(State()), u)
    {
      var remaining := collaborators.Delete(u);
      var locks := ReleaseLocks(lockedGates, u);
      collaborators, lockedGates := remaining, locks;
    }

    method LockGate(gateId: string, lock: Lock)
      requires Valid()
      modifies this
      ensures Valid() && State() == Locked(old(State()), gateId, lock)
    {
      lockedGates := lockedGates.Set(gateId, lock);
    }

    method UnlockGate(gateId: string)
      requires Valid()
      modifies this
      ensures Valid() && State() == Unlocked(old(State()), gateId)
    {
      lockedGates := lockedGates.Delete(gateId);
    }
  }
}
