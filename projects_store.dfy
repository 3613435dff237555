/**
 * The saved projects list: each project has an id, a name, an optional
 * description, creation and update times, its circuits and its active
 * circuit. Projects are added under fresh ids, patched, deleted and
 * duplicated.
 *
 * `crypto.randomUUID()` and `Date.now()` are parameters.
 */
module ProjectsStore {
  import opened Wrappers
  import opened ComposerStore
  import opened Sequences

  datatype Project = Project(
    id: string,
    name: string,
    description: Option<string>,
    createdAt: int,
    updatedAt: int,
    circuits: seq<CircuitInfo>,
    activeCircuitId: string)

  /** What `addProject` is given: a project without its id and times. */
  datatype Draft = Draft(name: string, description: Option<string>, circuits: seq<CircuitInfo>, activeCircuitId: string)

  /**
   * `Partial<Omit<Project, 'id' | 'createdAt'>>`: the fields an update sets.
   * A description given as `undefined` clears it, hence the nested option.
   */
  datatype ProjectPatch = ProjectPatch(
    name: Option<string>,
    description: Option<Option<string>>,
    circuits: Option<seq<CircuitInfo>>,
    activeCircuitId: Option<string>)

  predicate HasProject(ps: seq<Project>, id: string) {
    exists p <- ps :: p.id == id
  }

  /** No two projects share an id. */
  predicate DistinctIds(ps: seq<Project>) {
    forall i, j | 0 <= i < j < |ps| :: ps[i].id != ps[j].id
  }

  /** `addProject`: appends the draft under the new id, created and updated now. */
  function AddProject(ps: seq<Project>, d: Draft, uuid: string, now: int): (r: (seq<Project>, string))
    ensures r.1 == uuid && |r.0| == |ps| + 1 && r.0[..|ps|] == ps
    ensures var p := r.0[|ps|];
            p.id == uuid && p.createdAt == now && p.updatedAt == now
            && p.name == d.name && p.description == d.description
            && p.circuits == d.circuits && p.activeCircuitId == d.activeCircuitId
  {
    var p := Project(uuid, d.name, d.description, now, now, d.circuits, d.activeCircuitId);
    assert (ps + [p])[..|ps|] == ps;
    (ps + [p], uuid)
  }

  /** `getProject`: the first project with the id. */
  function GetProject(ps: seq<Project>, id: string): (r: Option<Project>)
    ensures r.None? <==> !HasProject(ps, id)
    ensures r.Some? ==> r.value in ps && r.value.id == id
    ensures r.Some? ==> exists i | 0 <= i < |ps| :: ps[i] == r.value && forall j | 0 <= j < i :: ps[j].id != id
  {
    if ps == [] then None
    else if ps[0].id == id then Some(ps[0])
    else
      assert forall p <- ps :: p == ps[0] || p in ps[1..];
      GetProject(ps[1..], id)
  }

  /** A project added under a fresh id is found under it. */
  lemma AddThenGet(ps: seq<Project>, d: Draft, uuid: string, now: int)
    requires !HasProject(ps, uuid)
    ensures var (r, id) := AddProject(ps, d, uuid, now);
            GetProject(r, id) == Some(r[|ps|]) && (DistinctIds(ps) ==> DistinctIds(r))
  {
    var (r, id) := AddProject(ps, d, uuid, now);
    GetAfterPrefix(ps, r[|ps|]);
    assert r == ps + [r[|ps|]];
    if DistinctIds(ps) {
      forall i, j | 0 <= i < j < |r|
        ensures r[i].id != r[j].id
      {
        if j == |ps| {
          assert r[i] == ps[i] && ps[i] in ps;
        } else {
          assert r[i] == ps[i] && r[j] == ps[j];
        }
      }
    }
  }

  lemma {:induction false} GetAfterPrefix(ps: seq<Project>, p: Project)
    requires !HasProject(ps, p.id)
    ensures GetProject(ps + [p], p.id) == Some(p)
  {
    if ps != [] {
      assert forall q <- ps[1..] :: q in ps;
      assert (ps + [p])[1..] == ps[1..] + [p];
      GetAfterPrefix(ps[1..], p);
    }
  }

  function Patched(p: Project, u: ProjectPatch, now: int): Project {
    Project(p.id, u.name.GetOr(p.name), u.description.GetOr(p.description), p.createdAt, now,
            u.circuits.GetOr(p.circuits), u.activeCircuitId.GetOr(p.activeCircuitId))
  }

  /**
   * `updateProject`: patches the projects with the id and stamps them
   * updated now; their id and creation time stay, and other projects are
   * untouched.
   */
  function UpdateProject(ps: seq<Project>, id: string, u: ProjectPatch, now: int): (r: seq<Project>)
    ensures |r| == |ps|
    ensures forall i | 0 <= i < |ps| ::
              r[i].id == ps[i].id && r[i].createdAt == ps[i].createdAt
              && (ps[i].id != id ==> r[i] == ps[i])
              && (ps[i].id == id ==> r[i].updatedAt == now && r[i].name == u.name.GetOr(ps[i].name)
                                     && r[i].description == u.description.GetOr(ps[i].description)
                                     && r[i].circuits == u.circuits.GetOr(ps[i].circuits)
                                     && r[i].activeCircuitId == u.activeCircuitId.GetOr(ps[i].activeCircuitId))
  {
    seq(|ps|, i requires 0 <= i < |ps| => if ps[i].id == id then Patched(ps[i], u, now) else ps[i])
  }

  /** `deleteProject`: keeps exactly the projects with another id, in order. */
  function DeleteProject(ps: seq<Project>, id: string): (r: seq<Project>)
    ensures |r| <= |ps|
    ensures forall p :: p in r <==> p in ps && p.id != id
    ensures r == Filter(ps, (p: Project) => p.id != id)
  {
    if ps == [] then []
    else
      var rest := DeleteProject(ps[1..], id);
      assert forall p :: p in ps <==> p == ps[0] || p in ps[1..];
      if ps[0].id == id then rest else [ps[0]] + rest
  }

  /** After deleting an id nothing is found under it, and the other projects are found as before. */
  lemma DeleteThenGet(ps: seq<Project>, id: string, other: string)
    requires DistinctIds(ps) && other != id
    ensures GetProject(DeleteProject(ps, id), id) == None
    ensures GetProject(DeleteProject(ps, id), other) == GetProject(ps, other)
  {
    var r := DeleteProject(ps, id);
    var g := GetProject(ps, other);
    var h := GetProject(r, other);
    if h.Some? {
      assert h.value in ps;
      UniqueGet(ps, h.value);
    }
    if g.Some? {
      assert g.value in r;
      DeleteKeepsDistinct(ps, id);
      UniqueGet(r, g.value);
    }
  }

  /** With unique ids the project found under an id is the one holding it. */
  lemma {:induction false} UniqueGet(ps: seq<Project>, p: Project)
    requires DistinctIds(ps) && p in ps
    ensures GetProject(ps, p.id) == Some(p)
  {
    if ps[0] != p {
      assert p in ps[1..];
      var j :| 1 <= j < |ps| && ps[j] == p;
      assert ps[0].id != p.id;
      UniqueGet(ps[1..], p);
    }
  }

  lemma {:induction false} DeleteKeepsDistinct(ps: seq<Project>, id: string)
    requires DistinctIds(ps)
    ensures DistinctIds(DeleteProject(ps, id))
  {
    if ps != [] {
      DeleteKeepsDistinct(ps[1..], id);
      var rest := DeleteProject(ps[1..], id);
      if ps[0].id != id {
        var r := [ps[0]] + rest;
        forall i, j | 0 <= i < j < |r|
          ensures r[i].id != r[j].id
        {
          if i == 0 {
            assert r[j] in rest;
            var k :| 1 <= k < |ps| && ps[k] == r[j];
          }
        }
      }
    }
  }

  /**
   * `duplicateProject`: nothing when the id is missing; otherwise a copy
   * named "<name> (Copy)" with the same description, circuits and active
   * circuit is added under the new id.
   */
  function DuplicateProject(ps: seq<Project>, id: string, uuid: string, now: int): (r: (seq<Project>, Option<string>))
    ensures r.1.None? <==> !HasProject(ps, id)
    ensures r.1.None? ==> r.0 == ps
    ensures r.1.Some? ==>
              r.1.value == uuid && |r.0| == |ps| + 1 && r.0[..|ps|] == ps
              && var orig := GetProject(ps, id).value;
                 var copy := r.0[|ps|];
                 copy.id == uuid && copy.name == orig.name + " (Copy)" && copy.description == orig.description
                 && copy.circuits == orig.circuits && copy.activeCircuitId == orig.activeCircuitId
                 && copy.createdAt == now && copy.updatedAt == now
  {
    match GetProject(ps, id)
    case None => (ps, None)
    case Some(p) =>
      var (r, newId) := AddProject(ps, Draft(p.name + " (Copy)", p.description, p.circuits, p.activeCircuitId), uuid, now);
      (r, Some(newId))
  }

  class Store {
    var projects: seq<Project>

    constructor ()
      ensures projects == []
    {
      projects := [];
    }

    function Get(id: string): Option<Project>
      reads this
    {
      GetProject(projects, id)
    }

    method Add(d: Draft, uuid: string, now: int) returns (id: string)
      modifies this
      ensures (projects, id) == AddProject(old(projects), d, uuid, now)
    {
      projects := projects + [Project(uuid, d.name, d.description, now, now, d.circuits, d.activeCircuitId)];
      id := uuid;
    }

    method Update(id: string, u: ProjectPatch, now: int)
      modifies this
      ensures projects == UpdateProject(old(projects), id, u, now)
    {
      projects := UpdateProject(projects, id, u, now);
    }

    method Delete(id: string)
      modifies this
      ensures projects == DeleteProject(old(projects), id)
    {
      projects := DeleteProject(projects, id);
    }

    method Duplicate(id: string, uuid: string, now: int) returns (newId: Option<string>)
      modifies this
      ensures (projects, newId) == DuplicateProject(old(projects), id, uuid, now)
    {
      var project := Get(id);
      if project.None? {
        return None;
      }
      var p := project.value;
      var created := Add(Draft(p.name + " (Copy)", p.description, p.circuits, p.activeCircuitId), uuid, now);
      newId := Some(created);
    }
  }
}
