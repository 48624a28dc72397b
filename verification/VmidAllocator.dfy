/**
 Allocation of hypervisor VM ids (`allocate_vmid` in backend/app/services/operation_service.py) and the row that the
 creation route inserts with the id in the same transaction (backend/app/api/routers/vms.py).
 */
module VmidAllocator {
  import opened Common

  type Scope = string

  const FIRST_VMID := 200000
  const SCOPE_PREFIX := "proxmox-cluster:"
  const DEFAULT_SCOPE := "proxmox-cluster"
  const CLUSTER_SCOPE := "proxmox-cluster:1"

  // A row of `student_vms`; rows of deleted VMs stay as tombstones.
  datatype Vm = Vm(cluster: Option<int>, vmid: int, deleted: bool)

  // `int` of the text after the last colon of a scope, None where it raises.
  type Numeral = string -> Option<int>

  function AfterLastColon(s: string): string {
    if s == "" || s[|s| - 1] == ':' then "" else AfterLastColon(s[..|s| - 1]) + [s[|s| - 1]]
  }

  // The cluster whose rows are looked at; None looks at all rows.
  function ClusterFor(numeral: Numeral, scope: Scope, cluster: Option<int>): Option<int> {
    if cluster.None? && SCOPE_PREFIX <= scope then numeral(AfterLastColon(scope)) else cluster
  }

  predicate InScope(cluster: Option<int>, vm: Vm) {
    cluster.Some? ==> vm.cluster == cluster
  }

  // The largest id among the rows in scope.
  function Largest(vms: seq<Vm>, cluster: Option<int>): (r: Option<int>)
    ensures r.None? <==> forall vm | vm in vms :: !InScope(cluster, vm)
    ensures r.Some? ==> exists vm :: vm in vms && InScope(cluster, vm) && vm.vmid == r.value
    ensures r.Some? ==> forall vm | vm in vms && InScope(cluster, vm) :: vm.vmid <= r.value
  {
    if vms == [] then None
    else
      var rest, last := Largest(vms[..|vms| - 1], cluster), vms[|vms| - 1];
      assert vms == vms[..|vms| - 1] + [last];
      if InScope(cluster, last) && (rest.None? || rest.value < last.vmid) then Some(last.vmid) else rest
  }

  function NextOf(next: map<Scope, int>, scope: Scope): int {
    if scope in next then next[scope] else FIRST_VMID
  }

  // The least id that no allocation of the scope has given, no row in scope has, and that is not below the first one.
  predicate Allocates(next: map<Scope, int>, vms: seq<Vm>, scope: Scope, cluster: Option<int>, value: int) {
    && value >= FIRST_VMID && value >= NextOf(next, scope)
    && (forall vm | vm in vms && InScope(cluster, vm) :: vm.vmid < value)
    && (value == FIRST_VMID || value == NextOf(next, scope) || exists vm ::
         vm in vms && InScope(cluster, vm) && vm.vmid == value - 1)
  }

  class Database {
    var next: map<Scope, int>
    var vms: seq<Vm>
    const numeral: Numeral

    constructor (numeral: Numeral)
      ensures next == map[] && vms == []
    {
      this.numeral := numeral;
      next, vms := map[], [];
    }

    method AllocateVmid(scope: Scope, cluster: Option<int>) returns (value: int)
      modifies this`next
      ensures Allocates(old(next), vms, scope, ClusterFor(numeral, scope, cluster), value)
      ensures next == old(next)[scope := value + 1]
    {
      if scope !in next { next := next[scope := FIRST_VMID]; }
      var c := cluster;
      if c.None? && SCOPE_PREFIX <= scope { c := numeral(AfterLastColon(scope)); }
      var largest := Largest(vms, c);
      var top := if largest.None? || largest.value == 0 then FIRST_VMID - 1 else largest.value;
      value := next[scope];
      if value < top + 1 { value := top + 1; }
      if value < FIRST_VMID { value := FIRST_VMID; }
      next := next[scope := value + 1];
    }

    // The creation route: the id and its row are committed together.
    method CreateVm(scope: Scope, cluster: int) returns (value: int)
      modifies this
      ensures Allocates(old(next), old(vms), scope, Some(cluster), value)
      ensures next == old(next)[scope := value + 1]
      ensures vms == old(vms) + [Vm(Some(cluster), value, false)]
    {
      value := AllocateVmid(scope, Some(cluster));
      vms := vms + [Vm(Some(cluster), value, false)];
    }
  }

  // ---- runs of committed transactions; one that is rolled back leaves nothing

  datatype Tables = Tables(next: map<Scope, int>, vms: seq<Vm>)

  datatype Step =
    | Allocate(scope: Scope, cluster: Option<int>, value: int)
    | Create(scope: Scope, home: int, value: int)
    | Insert(vm: Vm)
    | Bury(i: nat)

  ghost predicate Happens(numeral: Numeral, t: Tables, s: Step, t': Tables) {
    match s
    case Allocate(scope, cluster, value) =>
      && Allocates(t.next, t.vms, scope, ClusterFor(numeral, scope, cluster), value)
      && t' == Tables(t.next[scope := value + 1], t.vms)
    case Create(scope, home, value) =>
      && Allocates(t.next, t.vms, scope, Some(home), value)
      && t' == Tables(t.next[scope := value + 1], t.vms + [Vm(Some(home), value, false)])
    case Insert(vm) => t' == Tables(t.next, t.vms + [vm])
    case Bury(i) => i < |t.vms| && t' == Tables(t.next, t.vms[i := t.vms[i].(deleted := true)])
  }

  ghost predicate Run(numeral: Numeral, ts: seq<Tables>, steps: seq<Step>) {
    && |ts| == |steps| + 1
    && forall i | 0 <= i < |steps| :: Happens(numeral, ts[i], steps[i], ts[i + 1])
  }

  predicate Gives(s: Step, scope: Scope) {
    (s.Allocate? || s.Create?) && s.scope == scope
  }

  // The cluster whose rows an allocation looks at.
  function Seen(numeral: Numeral, s: Step): Option<int>
    requires s.Allocate? || s.Create?
  {
    if s.Create? then Some(s.home) else ClusterFor(numeral, s.scope, s.cluster)
  }

  lemma {:induction false} NextOnlyGrows(numeral: Numeral, ts: seq<Tables>, steps: seq<Step>, scope: Scope, i: nat,
      j: nat)
    requires Run(numeral, ts, steps) && i <= j < |ts|
    ensures NextOf(ts[i].next, scope) <= NextOf(ts[j].next, scope)
  {
    if i < j {
      NextOnlyGrows(numeral, ts, steps, scope, i, j - 1);
      assert Happens(numeral, ts[j - 1], steps[j - 1], ts[j]);
    }
  }

  // The ids given for one scope strictly increase, whatever else happens in between.
  lemma IdsIncrease(numeral: Numeral, ts: seq<Tables>, steps: seq<Step>, scope: Scope, i: nat, j: nat)
    requires Run(numeral, ts, steps) && i < j < |steps| && Gives(steps[i], scope) && Gives(steps[j], scope)
    ensures 200000 <= steps[i].value < steps[j].value
  {
    assert Happens(numeral, ts[i], steps[i], ts[i + 1]) && Happens(numeral, ts[j], steps[j], ts[j + 1]);
    NextOnlyGrows(numeral, ts, steps, scope, i + 1, j);
  }

  // Burying a VM keeps its id out of reach: every row ever inserted is still there, with its id.
  lemma {:induction false} RowsStay(numeral: Numeral, ts: seq<Tables>, steps: seq<Step>, i: nat, j: nat, k: nat)
    requires Run(numeral, ts, steps) && i <= j < |ts| && k < |ts[i].vms|
    ensures k < |ts[j].vms| && ts[j].vms[k].vmid == ts[i].vms[k].vmid && ts[j].vms[k].cluster == ts[i].vms[k].cluster
    ensures ts[i].vms[k].deleted ==> ts[j].vms[k].deleted
  {
    if i < j {
      RowsStay(numeral, ts, steps, i, j - 1, k);
      assert Happens(numeral, ts[j - 1], steps[j - 1], ts[j]);
    }
  }

  // An id given for a cluster is greater than that of any row the cluster ever had before, tombstones included.
  lemma IdsExceedAllRows(numeral: Numeral, ts: seq<Tables>, steps: seq<Step>, i: nat, j: nat, k: nat, scope: Scope)
    requires Run(numeral, ts, steps) && i <= j < |steps| && k < |ts[i].vms| && Gives(steps[j], scope)
    requires Seen(numeral, steps[j]) in {None, ts[i].vms[k].cluster}
    ensures ts[i].vms[k].vmid < steps[j].value
  {
    RowsStay(numeral, ts, steps, i, j, k);
    assert Happens(numeral, ts[j], steps[j], ts[j + 1]);
    assert ts[j].vms[k] in ts[j].vms;
  }

  // No id is skipped: a creation's id is the first one, the scope's next one, or one above a row of its own cluster.
  lemma IdsAreNotSkipped(numeral: Numeral, ts: seq<Tables>, steps: seq<Step>, j: nat)
    requires Run(numeral, ts, steps) && j < |steps| && steps[j].Create?
    ensures var next, value := ts[j].next, steps[j].value;
            || value == (if steps[j].scope in next then next[steps[j].scope] else 200000) || value == 200000
            || exists vm :: vm in ts[j].vms && vm.cluster == Some(steps[j].home) && vm.vmid == value - 1
  {
    assert Happens(numeral, ts[j], steps[j], ts[j + 1]);
  }

  lemma {:induction false} AfterColon(prefix: string, t: string)
    requires ':' !in t
    ensures AfterLastColon(prefix + ":" + t) == t
  {
    var s := prefix + ":" + t;
    if t != [] {
      var n := |t| - 1;
      assert s[..|s| - 1] == prefix + ":" + t[..n];
      assert t[n] in t;
      AfterColon(prefix, t[..n]);
      assert t == t[..n] + [t[n]];
    }
  }

  // Which rows an allocation looks at: those of the cluster it names, else those of the cluster that its scope names
  // after the last colon, else all of them.
  lemma ScopeNamesCluster(numeral: Numeral, scope: Scope, cluster: Option<int>, name: string)
    requires ':' !in name
    ensures cluster.Some? ==> ClusterFor(numeral, scope, cluster) == cluster
    ensures ClusterFor(numeral, "proxmox-cluster:" + name, None) == numeral(name)
    ensures !("proxmox-cluster:" <= scope) ==> ClusterFor(numeral, scope, None) == None
  {
    AfterColon("proxmox-cluster", name);
    assert "proxmox-cluster" + ":" + name == "proxmox-cluster:" + name;
  }

  predicate NoClash(vms: seq<Vm>) {
    forall i, j | 0 <= i < j < |vms| && vms[i].cluster.Some? && vms[i].cluster == vms[j].cluster ::
        vms[i].vmid < vms[j].vmid
  }

  // If rows come from the creation route alone, no two rows of a cluster ever share an id, whatever scopes were used.
  lemma {:induction false} NoTwoVmsShareAnId(numeral: Numeral, ts: seq<Tables>, steps: seq<Step>, n: nat)
    requires Run(numeral, ts, steps) && n < |ts| && NoClash(ts[0].vms)
    requires forall i | 0 <= i < |steps| :: !steps[i].Insert?
    ensures NoClash(ts[n].vms)
  {
    if n > 0 {
      NoTwoVmsShareAnId(numeral, ts, steps, n - 1);
      var t, s := ts[n - 1], steps[n - 1];
      assert Happens(numeral, t, s, ts[n]) && !s.Insert?;
      if s.Create? {
        assert forall i | 0 <= i < |t.vms| && t.vms[i].cluster == Some(s.home) ::
            t.vms[i] in t.vms && InScope(Some(s.home), t.vms[i]);
      }
    }
  }

  // The id an allocation gives: the greatest of the first id, the scope's next one, and one above the rows in scope.
  function Least(next: map<Scope, int>, vms: seq<Vm>, scope: Scope, cluster: Option<int>): int {
    var floor := if scope in next && next[scope] > 200000 then next[scope] else 200000;
    var largest := Largest(vms, cluster);
    if largest.Some? && largest.value >= floor then largest.value + 1 else floor
  }

  lemma AllocatesTheLeast(next: map<Scope, int>, vms: seq<Vm>, scope: Scope, cluster: Option<int>, value: int)
    ensures Allocates(next, vms, scope, cluster, value) <==> value == Least(next, vms, scope, cluster)
  {
  }

  // Two allocations with no row in between give the same id exactly when their scopes differ and the second scope
  // stood at it beforehand: its counter and its rows lie below the id, and one of them, or the first id, reaches it.
  lemma ScopesCollideIff(numeral: Numeral, ts: seq<Tables>, a: Step, b: Step)
    requires Run(numeral, ts, [a, b]) && a.Allocate? && b.Allocate?
    ensures a.value == b.value <==> a.scope != b.scope && StandsAt(ts[0], b.scope, Seen(numeral, b), a.value)
  {
    assert Happens(numeral, ts[0], [a, b][0], ts[1]) && Happens(numeral, ts[1], [a, b][1], ts[2]);
    AllocatesTheLeast(ts[1].next, ts[1].vms, b.scope, Seen(numeral, b), b.value);
    AllocatesTheLeast(ts[1].next, ts[1].vms, b.scope, Seen(numeral, b), a.value);
  }

  predicate StandsAt(t: Tables, scope: Scope, cluster: Option<int>, value: int) {
    var next := NextOf(t.next, scope);
    && next <= value
    && (forall vm | vm in t.vms && InScope(cluster, vm) :: vm.vmid < value)
    && (value in {FIRST_VMID, next} || exists vm :: vm in t.vms && InScope(cluster, vm) && vm.vmid == value - 1)
  }

  // The default scope and the scope of cluster 1, both untouched, collide.
  lemma ScopesCanCollide(numeral: Numeral) returns (ts: seq<Tables>, a: Step, b: Step)
    ensures Run(numeral, ts, [a, b]) && a.Allocate? && b.Allocate? && a.value == b.value
    ensures a.scope == "proxmox-cluster" && a.cluster == None && b.scope == "proxmox-cluster:1" && b.cluster == Some(1)
  {
    a, b := Allocate(DEFAULT_SCOPE, None, FIRST_VMID), Allocate(CLUSTER_SCOPE, Some(1), FIRST_VMID);
    var next := map[DEFAULT_SCOPE := FIRST_VMID + 1];
    ts := [Tables(map[], []), Tables(next, []), Tables(next[CLUSTER_SCOPE := FIRST_VMID + 1], [])];
    assert DEFAULT_SCOPE[|DEFAULT_SCOPE| - 1] != CLUSTER_SCOPE[|CLUSTER_SCOPE| - 1];
  }
}
