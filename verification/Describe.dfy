/** The describe view: how requests roll up a workload's components, and how the report breaks them down again.
    Counts are 32-bit and requests 64-bit two's complement, as they are stored. */
module Describe {
  import opened Basics

  // ---------------------------------------------------------------- fixed-width numbers

  const TWO_63 := 0x8000_0000_0000_0000
  const TWO_64 := 0x1_0000_0000_0000_0000
  const TWO_31 := 0x8000_0000
  const TWO_32 := 0x1_0000_0000

  function Wrap64(x: int): int { (x + TWO_63) % TWO_64 - TWO_63 }

  function Wrap32(x: int): int { (x + TWO_31) % TWO_32 - TWO_31 }

  lemma WrapSum(a: int, b: int)
    ensures Wrap64(Wrap64(a) + Wrap64(b)) == Wrap64(a + b)
    ensures Wrap64(Wrap64(a) - Wrap64(b)) == Wrap64(a - b)
    ensures Wrap64(Wrap64(a)) == Wrap64(a)
  {
    var j, k := (a + TWO_63) / TWO_64, (b + TWO_63) / TWO_64;
    assert Wrap64(a) == a - j * TWO_64 && Wrap64(b) == b - k * TWO_64;
    Turns(a + b + TWO_63, -j - k);
    Turns(a - b + TWO_63, k - j);
    Turns(a + TWO_63, -j);
  }

  datatype Resources = Resources(gpus: int, cpu: int, memory: int)

  const NOTHING := Resources(0, 0, 0)

  /** Unbounded arithmetic, to say what the sums mean. */
  function Plus(a: Resources, b: Resources): Resources { Resources(a.gpus + b.gpus, a.cpu + b.cpu, a.memory + b.memory) }

  function Minus(a: Resources, b: Resources): Resources { Resources(a.gpus - b.gpus, a.cpu - b.cpu, a.memory - b.memory) }

  function Times(a: Resources, n: int): Resources { Resources(a.gpus * n, a.cpu * n, a.memory * n) }

  function Wrap(r: Resources): Resources { Resources(Wrap64(r.gpus), Wrap64(r.cpu), Wrap64(r.memory)) }

  /** Resources.add, the subtraction of ownRequest, and Resources.scaled. */
  function Add(a: Resources, b: Resources): Resources { Wrap(Plus(a, b)) }

  function Subtract(a: Resources, b: Resources): Resources { Wrap(Minus(a, b)) }

  function Scaled(r: Resources, replicas: int): Resources { Wrap(Times(r, replicas)) }

  lemma WrapPlus(a: Resources, b: Resources)
    ensures Add(Wrap(a), Wrap(b)) == Wrap(Plus(a, b))
    ensures Subtract(Wrap(a), Wrap(b)) == Wrap(Minus(a, b))
    ensures Wrap(Wrap(a)) == Wrap(a)
  {
    WrapSum(a.gpus, b.gpus);
    WrapSum(a.cpu, b.cpu);
    WrapSum(a.memory, b.memory);
    hide Wrap64;
  }

  lemma WrapNothing()
    ensures Wrap(NOTHING) == NOTHING
  {
  }

  // ---------------------------------------------------------------- the component tree and its view

  datatype Scale = Scale(replicas: Option<int>, minReplicas: Option<int>)

  /** One instance of a component. `request` is what one replica of its extracted pod spec requests. */
  datatype InstanceNode = InstanceNode(instanceKey: Option<Name>, replicaKey: Option<Name>, scale: Option<Scale>,
                                       request: Option<Resources>, children: seq<ComponentNode>)

  datatype ComponentNode = ComponentNode(name: Name, kind: Name, podBearing: bool, instances: seq<InstanceNode>)

  datatype Pod = Pod(name: Name, ready: bool, node: Name)

  datatype Replicas = Replicas(desired: int, current: int, ready: int)

  datatype ComponentView = ComponentView(name: Name, kind: Name, replicas: Replicas, resources: Resources, nodes: set<Name>,
                                         pods: seq<Pod>, children: seq<ComponentView>)

  /** How pods are told apart. A failed match ends the description. */
  datatype Matching = Matching(ofType: (Name, seq<Pod>) -> Option<seq<Pod>>,
                               ofInstance: (Name, Option<Name>, Option<Name>, seq<Pod>) -> Option<seq<Pod>>,
                               title: (Name, Option<Name>, Option<Name>) -> Name)

  function ReplicasOf(scale: Option<Scale>): int {
    if scale.None? then 1
    else if scale.value.replicas.Some? then scale.value.replicas.value
    else if scale.value.minReplicas.Some? then scale.value.minReplicas.value
    else 1
  }

  function Size(node: ComponentNode): nat { 1 + InstancesSize(node.instances) }

  function InstancesSize(instances: seq<InstanceNode>): nat {
    if instances == [] then 0 else NodesSize(instances[0].children) + 1 + InstancesSize(instances[1..])
  }

  function NodesSize(nodes: seq<ComponentNode>): nat {
    if nodes == [] then 0 else Size(nodes[0]) + 1 + NodesSize(nodes[1..])
  }

  predicate IsMultiInstance(instances: seq<InstanceNode>) {
    exists i :: 0 <= i < |instances| && (instances[i].instanceKey.Some? || instances[i].replicaKey.Some?)
  }

  function Blank(name: Name, kind: Name): ComponentView {
    ComponentView(name, kind, Replicas(0, 0, 0), NOTHING, {}, [], [])
  }

  predicate IsEmpty(c: ComponentView) {
    c.pods == [] && c.children == [] && c.replicas == Replicas(0, 0, 0) && c.resources == NOTHING
  }

  /** appendComponent: plumbing the workload never populated is dropped. */
  function Append(components: seq<ComponentView>, component: ComponentView, podBearing: bool): seq<ComponentView> {
    if !podBearing && IsEmpty(component) then components else components + [component]
  }

  function AddReplicas(a: Replicas, b: Replicas): Replicas {
    Replicas(Wrap32(a.desired + b.desired), Wrap32(a.current + b.current), Wrap32(a.ready + b.ready))
  }

  /** aggregate, and the appending that comes with it. */
  function Aggregate(parent: ComponentView, child: ComponentView, podBearing: bool): ComponentView {
    parent.(children := Append(parent.children, child, podBearing), replicas := AddReplicas(parent.replicas, child.replicas),
            resources := Add(parent.resources, child.resources), nodes := parent.nodes + child.nodes)
  }

  /** What a pod-bearing component takes from a child: its totals only. */
  function TakeChild(parent: ComponentView, child: ComponentView, podBearing: bool): ComponentView {
    parent.(children := Append(parent.children, child, podBearing),
            resources := Add(parent.resources, child.resources), nodes := parent.nodes + child.nodes)
  }

  /** attach: every Pod is counted, and the rows are ordered by name. */
  function Attach(c: ComponentView, pods: seq<Pod>): ComponentView {
    var counted := Counted(c, pods);
    counted.(pods := SortedByName(counted.pods))
  }

  function Insert(pods: seq<Pod>, pod: Pod): seq<Pod>
    decreases |pods|
  {
    if pods == [] || pod.name < pods[0].name then [pod] + pods else [pods[0]] + Insert(pods[1..], pod)
  }

  function SortedByName(pods: seq<Pod>): seq<Pod>
    decreases |pods|
  {
    if pods == [] then [] else Insert(SortedByName(pods[..|pods| - 1]), pods[|pods| - 1])
  }

  function Counted(c: ComponentView, pods: seq<Pod>): ComponentView
    decreases |pods|
  {
    if pods == [] then c
    else
      var before := Counted(c, pods[..|pods| - 1]);
      var pod := pods[|pods| - 1];
      before.(replicas := before.replicas.(current := Wrap32(before.replicas.current + 1),
                                           ready := if pod.ready then Wrap32(before.replicas.ready + 1) else before.replicas.ready),
              pods := before.pods + [pod],
              nodes := before.nodes + if pod.node != 0 then {pod.node} else {})
  }

  // ---------------------------------------------------------------- building

  function BuildComponent(m: Matching, node: ComponentNode, pods: seq<Pod>): Option<ComponentView>
    decreases Size(node), 2, 0
  {
    var claimed := if node.podBearing then m.ofType(node.name, pods) else Some(pods);
    if claimed.None? then None
    else if !IsMultiInstance(node.instances) then BuildPlain(m, node.podBearing, node.name, node.kind, node.instances, claimed.value)
    else BuildInstances(m, node, Blank(node.name, node.kind), node.instances, claimed.value)
  }

  function BuildPlain(m: Matching, podBearing: bool, name: Name, kind: Name, instances: seq<InstanceNode>, pods: seq<Pod>): Option<ComponentView>
    decreases InstancesSize(instances), 2, 0
  {
    if podBearing then BuildPodBearing(m, Attach(Blank(name, kind), pods), instances, pods)
    else
      var c := BuildGrouping(m, Blank(name, kind), instances, pods);
      if c.Some? && c.value.children == [] then Some(c.value.(replicas := Declared(c.value.replicas, instances))) else c
  }

  /** One row per instance, each built as a component of its own. */
  function BuildInstances(m: Matching, node: ComponentNode, parent: ComponentView, instances: seq<InstanceNode>, claimed: seq<Pod>): Option<ComponentView>
    decreases InstancesSize(instances), 3, |instances|
  {
    if instances == [] then Some(parent)
    else
      var instance := instances[0];
      var scoped := m.ofInstance(node.name, instance.instanceKey, instance.replicaKey, claimed);
      if scoped.None? then None
      else
        SingleSize(instances);
        var title := m.title(node.name, instance.instanceKey, instance.replicaKey);
        var child := BuildPlain(m, node.podBearing, title, node.kind, [instance], scoped.value);
        if child.None? then None
        else BuildInstances(m, node, Aggregate(parent, child.value, node.podBearing), instances[1..], claimed)
  }

  /** Without descendants, only a scale the component really declares is reported. */
  function Declared(replicas: Replicas, instances: seq<InstanceNode>): Replicas
    decreases |instances|
  {
    if instances == [] then replicas
    else
      var before := Declared(replicas, instances[..|instances| - 1]);
      var instance := instances[|instances| - 1];
      if instance.scale.Some? then before.(desired := Wrap32(before.desired + ReplicasOf(instance.scale))) else before
  }

  function BuildGrouping(m: Matching, parent: ComponentView, instances: seq<InstanceNode>, pods: seq<Pod>): Option<ComponentView>
    decreases InstancesSize(instances), 1, 0
  {
    if instances == [] then Some(parent)
    else
      var next := BuildChildren(m, false, parent, instances[0].children, pods);
      if next.None? then None else BuildGrouping(m, next.value, instances[1..], pods)
  }

  function BuildPodBearing(m: Matching, parent: ComponentView, instances: seq<InstanceNode>, pods: seq<Pod>): Option<ComponentView>
    decreases InstancesSize(instances), 1, 0
  {
    if instances == [] then Some(parent)
    else
      var next := BuildChildren(m, true, Charge(parent, instances[0]), instances[0].children, pods);
      if next.None? then None else BuildPodBearing(m, next.value, instances[1..], pods)
  }

  /** An instance's own replicas and requests. */
  function Charge(c: ComponentView, instance: InstanceNode): ComponentView {
    var replicas := ReplicasOf(instance.scale);
    c.(replicas := c.replicas.(desired := Wrap32(c.replicas.desired + replicas)),
       resources := if instance.request.Some? then Add(c.resources, Scaled(instance.request.value, replicas)) else c.resources)
  }

  function BuildChildren(m: Matching, podBearing: bool, parent: ComponentView, nodes: seq<ComponentNode>, pods: seq<Pod>): Option<ComponentView>
    decreases NodesSize(nodes), 3, 0
  {
    if nodes == [] then Some(parent)
    else
      var child := BuildComponent(m, nodes[0], pods);
      if child.None? then None
      else
        var next := if podBearing then TakeChild(parent, child.value, nodes[0].podBearing) else Aggregate(parent, child.value, nodes[0].podBearing);
        BuildChildren(m, podBearing, next, nodes[1..], pods)
  }

  lemma SingleSize(instances: seq<InstanceNode>)
    requires instances != []
    ensures InstancesSize([instances[0]]) <= InstancesSize(instances)
    ensures InstancesSize(instances[1..]) < InstancesSize(instances)
  {
    assert [instances[0]][1..] == [];
  }

  /** ResolveDescribe's components: the root where it carries pods itself, then the tree's children. */
  datatype Root = Root(name: Name, kind: Name, instances: seq<InstanceNode>)

  function BuildView(m: Matching, root: Option<Root>, nodes: seq<ComponentNode>, pods: seq<Pod>): Option<seq<ComponentView>> {
    if root.None? then BuildTop(m, [], nodes, pods)
    else
      var claimed := m.ofType(root.value.name, pods);
      if claimed.None? then None
      else
        var component := BuildPlain(m, true, root.value.name, root.value.kind, root.value.instances, claimed.value);
        if component.None? then None else BuildTop(m, [component.value], nodes, pods)
  }

  function BuildTop(m: Matching, done: seq<ComponentView>, nodes: seq<ComponentNode>, pods: seq<Pod>): Option<seq<ComponentView>>
    decreases |nodes|
  {
    if nodes == [] then Some(done)
    else
      var component := BuildComponent(m, nodes[0], pods);
      if component.None? then None
      else BuildTop(m, Append(done, component.value, nodes[0].podBearing), nodes[1..], pods)
  }

  /** The view's total. */
  function Total(components: seq<ComponentView>): Resources
    decreases |components|
  {
    if components == [] then NOTHING
    else Add(Total(components[..|components| - 1]), components[|components| - 1].resources)
  }

  // ---------------------------------------------------------------- breaking the total down

  datatype Row = Row(name: Name, replicas: int, request: Resources)

  /** What a component requests beyond its children. */
  function OwnRequest(c: ComponentView): Resources { SubtractAll(c.resources, c.children) }

  function SubtractAll(r: Resources, children: seq<ComponentView>): Resources
    decreases |children|
  {
    if children == [] then r
    else Subtract(SubtractAll(r, children[..|children| - 1]), children[|children| - 1].resources)
  }

  function DesiredSum(children: seq<ComponentView>): int
    decreases |children|
  {
    if children == [] then 0
    else Wrap32(DesiredSum(children[..|children| - 1]) + children[|children| - 1].replicas.desired)
  }

  /** A component that only repeats its children. */
  predicate IsGrouping(c: ComponentView) {
    c.children != [] && c.pods == [] && OwnRequest(c) == NOTHING && c.replicas.desired == DesiredSum(c.children)
  }

  function OwnRow(c: ComponentView): seq<Row> {
    if IsGrouping(c) then [] else [Row(c.name, c.replicas.desired, OwnRequest(c))]
  }

  function ResourceRows(components: seq<ComponentView>): seq<Row>
    decreases components
  {
    if components == [] then []
    else
      var last := components[|components| - 1];
      ResourceRows(components[..|components| - 1]) + OwnRow(last) + ResourceRows(last.children)
  }

  // ---------------------------------------------------------------- conservation

  /** Unbounded sums. */
  function SumOf(components: seq<ComponentView>): Resources
    decreases |components|
  {
    if components == [] then NOTHING
    else Plus(SumOf(components[..|components| - 1]), components[|components| - 1].resources)
  }

  function SumRows(rows: seq<Row>): Resources
    decreases |rows|
  {
    if rows == [] then NOTHING else Plus(SumRows(rows[..|rows| - 1]), rows[|rows| - 1].request)
  }

  lemma {:induction false} SumRowsAppend(a: seq<Row>, b: seq<Row>)
    ensures SumRows(a + b) == Plus(SumRows(a), SumRows(b))
    decreases |b|
  {
    if b == [] {
      assert a + b == a;
    } else {
      SumRowsAppend(a, b[..|b| - 1]);
      assert (a + b)[..|a + b| - 1] == a + b[..|b| - 1];
    }
  }

  lemma {:induction false} SubtractAllSum(r: Resources, children: seq<ComponentView>)
    ensures Wrap(SubtractAll(r, children)) == Wrap(Minus(r, SumOf(children)))
    decreases |children|
  {
    if children != [] {
      var most := children[..|children| - 1];
      var last := children[|children| - 1].resources;
      SubtractAllSum(r, most);
      WrapMinus(SubtractAll(r, most), Minus(r, SumOf(most)), last);
    }
  }

  /** Wrapping can be postponed. */
  lemma WrapMinus(a: Resources, b: Resources, c: Resources)
    requires Wrap(a) == Wrap(b)
    ensures Wrap(Subtract(a, c)) == Wrap(Minus(b, c))
  {
    WrapPlus(a, c);
    WrapPlus(b, c);
    WrapPlus(Minus(a, c), NOTHING);
    SameWrap(a.gpus, b.gpus, c.gpus);
    SameWrap(a.cpu, b.cpu, c.cpu);
    SameWrap(a.memory, b.memory, c.memory);
    hide Wrap64;
  }

  lemma SameWrap(a: int, b: int, c: int)
    requires Wrap64(a) == Wrap64(b)
    ensures Wrap64(a - c) == Wrap64(b - c) && Wrap64(a + c) == Wrap64(b + c) && Wrap64(c + a) == Wrap64(c + b)
  {
    var k := (a + TWO_63) / TWO_64 - (b + TWO_63) / TWO_64;
    assert a == b + k * TWO_64;
    Turns(b - c + TWO_63, k);
    Turns(b + c + TWO_63, k);
  }

  lemma Turns(x: int, k: int)
    ensures (x + k * TWO_64) % TWO_64 == x % TWO_64
  {
  }

  lemma WrapPlusSame(a: Resources, b: Resources, c: Resources)
    requires Wrap(a) == Wrap(b)
    ensures Wrap(Plus(a, c)) == Wrap(Plus(b, c)) && Wrap(Plus(c, a)) == Wrap(Plus(c, b))
  {
    SameWrap(a.gpus, b.gpus, c.gpus);
    SameWrap(a.cpu, b.cpu, c.cpu);
    SameWrap(a.memory, b.memory, c.memory);
    hide Wrap64;
  }

  lemma RestoreChildren(c: ComponentView)
    ensures Wrap(Plus(OwnRequest(c), SumOf(c.children))) == Wrap(c.resources)
  {
    SubtractAllSum(c.resources, c.children);
    WrapPlusSame(OwnRequest(c), Minus(c.resources, SumOf(c.children)), SumOf(c.children));
    hide Wrap;
  }

  lemma OwnRowSum(c: ComponentView)
    ensures SumRows(OwnRow(c)) == OwnRequest(c)
  {
    if !IsGrouping(c) {
      var row := Row(c.name, c.replicas.desired, OwnRequest(c));
      assert [row][..0] == [];
    }
    hide OwnRequest;
  }

  /** For every tree of components, well built or not, the rows sum to the components' total: skipping a component
      that only repeats its children loses nothing. Exact modulo the width of the counters. */
  lemma {:induction false} RowsSumToTotal(components: seq<ComponentView>)
    ensures Wrap(SumRows(ResourceRows(components))) == Wrap(SumOf(components))
    decreases components
  {
    if components != [] {
      var most, last := components[..|components| - 1], components[|components| - 1];
      RowsSumToTotal(most);
      RowsSumToTotal(last.children);
      SumRowsAppend(ResourceRows(most) + OwnRow(last), ResourceRows(last.children));
      SumRowsAppend(ResourceRows(most), OwnRow(last));
      OwnRowSum(last);
      RestoreChildren(last);
      var own := OwnRequest(last);
      WrapPlusSame(SumRows(ResourceRows(last.children)), SumOf(last.children), own);
      WrapPlusSame(SumRows(ResourceRows(most)), SumOf(most), Plus(own, SumRows(ResourceRows(last.children))));
      WrapPlusSame(Plus(own, SumRows(ResourceRows(last.children))), last.resources, SumOf(most));
      hide Wrap, OwnRequest, ResourceRows, SumRows, OwnRow;
      PlusAssociates(SumRows(ResourceRows(most)), own, SumRows(ResourceRows(last.children)));
    }
  }

  lemma PlusAssociates(a: Resources, b: Resources, c: Resources)
    ensures Plus(Plus(a, b), c) == Plus(a, Plus(b, c))
  {
  }

  lemma {:induction false} TotalIsSum(components: seq<ComponentView>)
    ensures Wrap(Total(components)) == Wrap(SumOf(components))
    decreases |components|
  {
    if components != [] {
      var most, last := components[..|components| - 1], components[|components| - 1].resources;
      TotalIsSum(most);
      WrapPlusSame(Total(most), SumOf(most), last);
      WrapPlus(Plus(Total(most), last), NOTHING);
      hide Wrap;
    }
  }

  // ---------------------------------------------------------------- what the builder charges

  /** One instance's own request times its replicas. */
  function Own(instance: InstanceNode): Resources {
    if instance.request.Some? then Times(instance.request.value, ReplicasOf(instance.scale)) else NOTHING
  }

  function OwnClaim(podBearing: bool, instances: seq<InstanceNode>): Resources {
    if instances == [] || !podBearing then NOTHING else Plus(Own(instances[0]), OwnClaim(podBearing, instances[1..]))
  }

  /** Everything the pod-bearing instances of a subtree request, read off the definition alone. */
  function NodeClaim(node: ComponentNode): Resources
    decreases Size(node), 0
  {
    InstancesClaim(node.podBearing, node.instances)
  }

  function InstancesClaim(podBearing: bool, instances: seq<InstanceNode>): Resources
    decreases InstancesSize(instances), 0
  {
    if instances == [] then NOTHING
    else Plus(Plus(if podBearing then Own(instances[0]) else NOTHING, NodesClaim(instances[0].children)),
              InstancesClaim(podBearing, instances[1..]))
  }

  function NodesClaim(nodes: seq<ComponentNode>): Resources
    decreases NodesSize(nodes), 0
  {
    if nodes == [] then NOTHING else Plus(NodeClaim(nodes[0]), NodesClaim(nodes[1..]))
  }

  /** A component under construction: what it charged itself, and what its children bring. */
  predicate Books(c: ComponentView, own: Resources, all: Resources) {
    c.resources == Wrap(all) && Wrap(all) == Wrap(Plus(own, SumOf(c.children)))
  }

  lemma AppendSum(components: seq<ComponentView>, c: ComponentView, podBearing: bool)
    ensures SumOf(Append(components, c, podBearing)) == Plus(SumOf(components), c.resources)
  {
    if podBearing || !IsEmpty(c) {
      assert (components + [c])[..|components|] == components;
    }
  }

  /** Taking a child keeps the books, whether the child is appended or dropped as empty. */
  lemma TakeKeepsBooks(c: ComponentView, own: Resources, all: Resources, child: ComponentView, claim: Resources, podBearing: bool)
    requires Books(c, own, all) && child.resources == Wrap(claim)
    ensures Books(TakeChild(c, child, podBearing), own, Plus(all, claim))
    ensures Books(Aggregate(c, child, podBearing), own, Plus(all, claim))
  {
    AppendSum(c.children, child, podBearing);
    WrapPlus(all, claim);
    WrapPlusSame(all, Plus(own, SumOf(c.children)), claim);
    WrapPlus(claim, NOTHING);
    WrapPlusSame(claim, Wrap(claim), Plus(own, SumOf(c.children)));
    PlusAssociates(own, SumOf(c.children), child.resources);
    hide Wrap, Append, SumOf, Plus, AddReplicas;
  }

  lemma ChargeKeepsBooks(c: ComponentView, own: Resources, all: Resources, instance: InstanceNode)
    requires Books(c, own, all)
    ensures Books(Charge(c, instance), Plus(own, Own(instance)), Plus(all, Own(instance)))
  {
    var claim := Own(instance);
    var sum := SumOf(c.children);
    WrapPlus(all, claim);
    WrapPlusSame(all, Plus(own, sum), claim);
    assert Plus(Plus(own, sum), claim) == Plus(Plus(own, claim), sum);
    if instance.request.None? {
      assert Plus(all, NOTHING) == all;
    }
    hide Wrap, SumOf, Plus, Times;
  }

  lemma {:induction false} ChildrenBooks(m: Matching, podBearing: bool, parent: ComponentView, nodes: seq<ComponentNode>, pods: seq<Pod>,
                                         own: Resources, all: Resources)
    requires Books(parent, own, all) && BuildChildren(m, podBearing, parent, nodes, pods).Some?
    ensures Books(BuildChildren(m, podBearing, parent, nodes, pods).value, own, Plus(all, NodesClaim(nodes)))
    decreases NodesSize(nodes), 3, 0
  {
    if nodes == [] {
      assert Plus(all, NOTHING) == all;
    } else {
      var child := BuildComponent(m, nodes[0], pods).value;
      var claim := NodeClaim(nodes[0]);
      ComponentBooks(m, nodes[0], pods);
      TakeKeepsBooks(parent, own, all, child, claim, nodes[0].podBearing);
      var next := if podBearing then TakeChild(parent, child, nodes[0].podBearing) else Aggregate(parent, child, nodes[0].podBearing);
      hide Books, TakeChild, Aggregate, NodeClaim, Append;
      ChildrenBooks(m, podBearing, next, nodes[1..], pods, own, Plus(all, claim));
      PlusAssociates(all, claim, NodesClaim(nodes[1..]));
    }
  }

  lemma {:induction false} GroupingBooks(m: Matching, parent: ComponentView, instances: seq<InstanceNode>, pods: seq<Pod>, own: Resources, all: Resources)
    requires Books(parent, own, all) && BuildGrouping(m, parent, instances, pods).Some?
    ensures Books(BuildGrouping(m, parent, instances, pods).value, own, Plus(all, InstancesClaim(false, instances)))
    decreases InstancesSize(instances), 1, 0
  {
    PlusNothing(all);
    if instances != [] {
      hide Books, BuildChildren, NodesClaim, Plus;
      var claim := NodesClaim(instances[0].children);
      ChildrenBooks(m, false, parent, instances[0].children, pods, own, all);
      var next := BuildChildren(m, false, parent, instances[0].children, pods).value;
      GroupingBooks(m, next, instances[1..], pods, own, Plus(all, claim));
      PlusAssociates(all, claim, InstancesClaim(false, instances[1..]));
      PlusNothing(claim);
    }
  }

  lemma {:induction false} PodBearingBooks(m: Matching, parent: ComponentView, instances: seq<InstanceNode>, pods: seq<Pod>, own: Resources, all: Resources)
    requires Books(parent, own, all) && BuildPodBearing(m, parent, instances, pods).Some?
    ensures Books(BuildPodBearing(m, parent, instances, pods).value, Plus(own, OwnClaim(true, instances)), Plus(all, InstancesClaim(true, instances)))
    decreases InstancesSize(instances), 1, 0
  {
    if instances == [] {
      assert Plus(all, NOTHING) == all && Plus(own, NOTHING) == own;
    } else {
      var mine, claim := Own(instances[0]), NodesClaim(instances[0].children);
      ChargeKeepsBooks(parent, own, all, instances[0]);
      var charged := Charge(parent, instances[0]);
      ChildrenBooks(m, true, charged, instances[0].children, pods, Plus(own, mine), Plus(all, mine));
      var next := BuildChildren(m, true, charged, instances[0].children, pods).value;
      hide Books, BuildChildren, NodesClaim, Charge, Own;
      PodBearingBooks(m, next, instances[1..], pods, Plus(own, mine), Plus(Plus(all, mine), claim));
      PlusAssociates(own, mine, OwnClaim(true, instances[1..]));
      PlusAssociates(all, mine, claim);
      PlusAssociates(all, Plus(mine, claim), InstancesClaim(true, instances[1..]));
    }
  }

  lemma {:induction false} AttachTotals(c: ComponentView, pods: seq<Pod>)
    ensures Attach(c, pods).resources == c.resources && Attach(c, pods).children == c.children
    ensures Counted(c, pods).resources == c.resources && Counted(c, pods).children == c.children
    decreases |pods|
  {
    if pods != [] {
      AttachTotals(c, pods[..|pods| - 1]);
    }
  }

  predicate NameOrdered(pods: seq<Pod>) { forall i, j :: 0 <= i < j < |pods| ==> pods[i].name <= pods[j].name }

  lemma {:induction false} InsertKeeps(pods: seq<Pod>, pod: Pod)
    ensures multiset(Insert(pods, pod)) == multiset(pods) + multiset{pod}
    decreases |pods|
  {
    if pods == [] || pod.name < pods[0].name {
      assert multiset([pod] + pods) == multiset{pod} + multiset(pods);
    } else {
      InsertKeeps(pods[1..], pod);
      assert pods == [pods[0]] + pods[1..];
    }
  }

  lemma HeadOrders(head: Pod, rest: seq<Pod>)
    requires NameOrdered(rest) && forall i :: 0 <= i < |rest| ==> head.name <= rest[i].name
    ensures NameOrdered([head] + rest)
  {
  }

  lemma TailOrders(pods: seq<Pod>)
    requires NameOrdered(pods) && pods != []
    ensures NameOrdered(pods[1..]) && forall i :: 0 <= i < |pods[1..]| ==> pods[0].name <= pods[1..][i].name
  {
  }

  lemma {:induction false} InsertAbove(pods: seq<Pod>, pod: Pod, name: Name)
    requires name <= pod.name && forall i :: 0 <= i < |pods| ==> name <= pods[i].name
    ensures forall i :: 0 <= i < |Insert(pods, pod)| ==> name <= Insert(pods, pod)[i].name
    decreases |pods|
  {
    if pods != [] && pod.name >= pods[0].name {
      InsertAbove(pods[1..], pod, name);
    }
  }

  lemma {:induction false} InsertOrders(pods: seq<Pod>, pod: Pod)
    requires NameOrdered(pods)
    ensures NameOrdered(Insert(pods, pod))
    decreases |pods|
  {
    hide NameOrdered;
    if pods == [] {
      OneOrdered(pod);
      assert [pod] + [] == [pod];
    } else {
      TailOrders(pods);
      if pod.name < pods[0].name {
        assert forall i :: 0 <= i < |pods| ==> pods[i] == if i == 0 then pods[0] else pods[1..][i - 1];
        HeadOrders(pod, pods);
      } else {
        InsertOrders(pods[1..], pod);
        InsertAbove(pods[1..], pod, pods[0].name);
        HeadOrders(pods[0], Insert(pods[1..], pod));
      }
    }
  }

  lemma OneOrdered(pod: Pod)
    ensures NameOrdered([pod])
  {
  }

  lemma {:induction false} SortsByName(pods: seq<Pod>)
    ensures NameOrdered(SortedByName(pods)) && multiset(SortedByName(pods)) == multiset(pods)
    decreases |pods|
  {
    if pods != [] {
      var most, last := pods[..|pods| - 1], pods[|pods| - 1];
      SortsByName(most);
      InsertOrders(SortedByName(most), last);
      InsertKeeps(SortedByName(most), last);
      assert pods == most + [last];
    }
  }

  function ReadyPods(pods: seq<Pod>): nat
    decreases |pods|
  {
    if pods == [] then 0 else ReadyPods(pods[..|pods| - 1]) + if pods[|pods| - 1].ready then 1 else 0
  }

  function NodesOf(pods: seq<Pod>): set<Name> { set p | p in pods && p.node != 0 :: p.node }

  /** `c` counts the Pods in order. */
  predicate Counts(c: ComponentView, pods: seq<Pod>) {
    && c.pods == pods && c.nodes == NodesOf(pods)
    && c.replicas == Replicas(0, Wrap32(|pods|), Wrap32(ReadyPods(pods)))
  }

  lemma {:induction false} CountedPods(name: Name, kind: Name, pods: seq<Pod>)
    ensures Counts(Counted(Blank(name, kind), pods), pods)
    decreases |pods|
  {
    hide Counts, Counted;
    if pods == [] {
      NoneCounted(name, kind);
    } else {
      var most, last := pods[..|pods| - 1], pods[|pods| - 1];
      CountedPods(name, kind, most);
      assert pods == most + [last];
      CountsMore(Blank(name, kind), most, last);
    }
  }

  lemma NoneCounted(name: Name, kind: Name)
    ensures Counts(Counted(Blank(name, kind), []), [])
  {
  }

  lemma CountsMore(c: ComponentView, most: seq<Pod>, last: Pod)
    requires Counts(Counted(c, most), most)
    ensures Counts(Counted(c, most + [last]), most + [last])
  {
    hide Wrap32, NodesOf, Counted, ReadyPods;
    MoreCounted(c, most, last);
    MoreNodes(most, last);
    CountOne(|most|);
    CountOne(ReadyPods(most));
  }

  lemma MoreCounted(c: ComponentView, most: seq<Pod>, last: Pod)
    ensures var before := Counted(c, most);
            Counted(c, most + [last]) ==
            before.(replicas := before.replicas.(current := Wrap32(before.replicas.current + 1),
                                                 ready := if last.ready then Wrap32(before.replicas.ready + 1) else before.replicas.ready),
                    pods := before.pods + [last],
                    nodes := before.nodes + if last.node != 0 then {last.node} else {})
    ensures ReadyPods(most + [last]) == ReadyPods(most) + if last.ready then 1 else 0
  {
    hide Wrap32;
    assert (most + [last])[..|most|] == most;
  }

  lemma MoreNodes(most: seq<Pod>, last: Pod)
    ensures NodesOf(most + [last]) == NodesOf(most) + if last.node != 0 then {last.node} else {}
  {
  }

  lemma CountOne(n: nat)
    ensures Wrap32(Wrap32(n) + 1) == Wrap32(n + 1)
  {
  }

  /** A component's Pods, once each and ordered by name, how many there are and are ready, and the nodes they run on. */
  lemma AttachedPods(name: Name, kind: Name, pods: seq<Pod>)
    ensures var c := Attach(Blank(name, kind), pods);
            && NameOrdered(c.pods) && multiset(c.pods) == multiset(pods)
            && c.replicas == Replicas(0, Wrap32(|pods|), Wrap32(ReadyPods(pods)))
            && c.nodes == NodesOf(pods)
  {
    CountedPods(name, kind, pods);
    SortsByName(pods);
    hide Wrap32;
  }

  /** A component of its own charges exactly its own instances, and rolls up exactly its subtree. */
  lemma {:induction false} PlainBooks(m: Matching, podBearing: bool, name: Name, kind: Name, instances: seq<InstanceNode>, pods: seq<Pod>)
    requires BuildPlain(m, podBearing, name, kind, instances, pods).Some?
    ensures Books(BuildPlain(m, podBearing, name, kind, instances, pods).value, OwnClaim(podBearing, instances), InstancesClaim(podBearing, instances))
    decreases InstancesSize(instances), 2, 0
  {
    hide BuildPodBearing, BuildGrouping, InstancesClaim, Attach, Declared, Plus;
    BlankBooks(name, kind, pods);
    PlusNothing(InstancesClaim(podBearing, instances));
    PlusNothing(OwnClaim(podBearing, instances));
    if podBearing {
      PodBearingBooks(m, Attach(Blank(name, kind), pods), instances, pods, NOTHING, NOTHING);
    } else {
      GroupingBooks(m, Blank(name, kind), instances, pods, NOTHING, NOTHING);
      assert OwnClaim(false, instances) == NOTHING;
    }
  }

  lemma BlankBooks(name: Name, kind: Name, pods: seq<Pod>)
    ensures Books(Blank(name, kind), NOTHING, NOTHING) && Books(Attach(Blank(name, kind), pods), NOTHING, NOTHING)
  {
    hide Attach, Wrap;
    WrapNothing();
    AttachTotals(Blank(name, kind), pods);
    PlusNothing(NOTHING);
    hide Plus;
  }

  /** A multi-instance component charges nothing itself: each instance is a row of its own. */
  lemma {:induction false} InstancesBooks(m: Matching, node: ComponentNode, parent: ComponentView, instances: seq<InstanceNode>, claimed: seq<Pod>, all: Resources)
    requires Books(parent, NOTHING, all) && BuildInstances(m, node, parent, instances, claimed).Some?
    ensures Books(BuildInstances(m, node, parent, instances, claimed).value, NOTHING, Plus(all, InstancesClaim(node.podBearing, instances)))
    decreases InstancesSize(instances), 3, |instances|
  {
    if instances == [] {
      assert Plus(all, NOTHING) == all;
    } else {
      var instance := instances[0];
      SingleSize(instances);
      var scoped := m.ofInstance(node.name, instance.instanceKey, instance.replicaKey, claimed).value;
      var title := m.title(node.name, instance.instanceKey, instance.replicaKey);
      PlainBooks(m, node.podBearing, title, node.kind, [instance], scoped);
      var child := BuildPlain(m, node.podBearing, title, node.kind, [instance], scoped).value;
      var claim := InstancesClaim(node.podBearing, [instance]);
      SingleClaim(node.podBearing, instances);
      TakeKeepsBooks(parent, NOTHING, all, child, claim, node.podBearing);
      hide Books, BuildPlain, Aggregate, InstancesClaim;
      InstancesBooks(m, node, Aggregate(parent, child, node.podBearing), instances[1..], claimed, Plus(all, claim));
      PlusAssociates(all, claim, InstancesClaim(node.podBearing, instances[1..]));
    }
  }

  lemma SingleClaim(podBearing: bool, instances: seq<InstanceNode>)
    requires instances != []
    ensures InstancesClaim(podBearing, instances)
         == Plus(InstancesClaim(podBearing, [instances[0]]), InstancesClaim(podBearing, instances[1..]))
  {
    hide NodesClaim, Own, Plus;
    var first := [instances[0]];
    assert first[1..] == [];
    var head := Plus(if podBearing then Own(instances[0]) else NOTHING, NodesClaim(instances[0].children));
    assert InstancesClaim(podBearing, first[1..]) == NOTHING;
    assert InstancesClaim(podBearing, first) == Plus(head, NOTHING);
    PlusNothing(head);
  }

  lemma PlusNothing(r: Resources)
    ensures Plus(r, NOTHING) == r && Plus(NOTHING, r) == r
  {
  }

  /** Every component's total is what its subtree's definition claims, and its own part what its own instances claim. */
  lemma {:induction false} ComponentBooks(m: Matching, node: ComponentNode, pods: seq<Pod>)
    requires BuildComponent(m, node, pods).Some?
    ensures Books(BuildComponent(m, node, pods).value,
                  if IsMultiInstance(node.instances) then NOTHING else OwnClaim(node.podBearing, node.instances), NodeClaim(node))
    decreases Size(node), 2, 0
  {
    hide BuildInstances, BuildPlain, InstancesClaim, OwnClaim, Plus, Books;
    var claimed := if node.podBearing then m.ofType(node.name, pods) else Some(pods);
    if !IsMultiInstance(node.instances) {
      PlainBooks(m, node.podBearing, node.name, node.kind, node.instances, claimed.value);
    } else {
      BlankBooks(node.name, node.kind, pods);
      PlusNothing(NodeClaim(node));
      InstancesBooks(m, node, Blank(node.name, node.kind), node.instances, claimed.value, NOTHING);
    }
  }

  /** So the row of a built component is its own request times its replicas. */
  lemma OwnRequestIsClaim(c: ComponentView, own: Resources, all: Resources)
    requires Books(c, own, all)
    ensures OwnRequest(c) == Wrap(own)
  {
    SubtractAllSum(c.resources, c.children);
    var sum := SumOf(c.children);
    WrapPlus(all, NOTHING);
    WrapMinusSame(c.resources, Plus(own, sum), sum);
    assert Minus(Plus(own, sum), sum) == own;
    if c.children != [] {
      SubtractedIsWrapped(c.resources, c.children);
    } else {
      PlusNothing(own);
    }
    hide Wrap, SubtractAll;
  }

  lemma SubtractedIsWrapped(r: Resources, children: seq<ComponentView>)
    requires children != []
    ensures Wrap(SubtractAll(r, children)) == SubtractAll(r, children)
  {
    var most := children[..|children| - 1];
    WrapPlus(Minus(SubtractAll(r, most), children[|children| - 1].resources), NOTHING);
    hide Wrap;
  }

  lemma WrapMinusSame(a: Resources, b: Resources, c: Resources)
    requires Wrap(a) == Wrap(b)
    ensures Wrap(Minus(a, c)) == Wrap(Minus(b, c))
  {
    SameWrap(a.gpus, b.gpus, c.gpus);
    SameWrap(a.cpu, b.cpu, c.cpu);
    SameWrap(a.memory, b.memory, c.memory);
    hide Wrap64;
  }

  // ---------------------------------------------------------------- without overflow

  predicate NonNegative(r: Resources) { r.gpus >= 0 && r.cpu >= 0 && r.memory >= 0 }

  predicate Fits(r: Resources) { r.gpus < TWO_63 && r.cpu < TWO_63 && r.memory < TWO_63 }

  predicate AtMost(a: Resources, b: Resources) { a.gpus <= b.gpus && a.cpu <= b.cpu && a.memory <= b.memory }

  lemma WrapFits(r: Resources)
    requires NonNegative(r) && Fits(r)
    ensures Wrap(r) == r
  {
  }

  /** No instance requests a negative amount or a negative number of replicas. */
  predicate SoundInstance(i: InstanceNode)
    decreases InstancesSize([i]), 0
  {
    ReplicasOf(i.scale) >= 0 && (i.request.Some? ==> NonNegative(i.request.value))
  }

  predicate SoundInstances(instances: seq<InstanceNode>)
    decreases InstancesSize(instances), 1
  {
    instances == [] || (SoundInstance(instances[0]) && SoundNodes(instances[0].children) && SoundInstances(instances[1..]))
  }

  predicate SoundNodes(nodes: seq<ComponentNode>)
    decreases NodesSize(nodes), 1
  {
    nodes == [] ||
    (assert Size(nodes[0]) == 1 + InstancesSize(nodes[0].instances);
     SoundInstances(nodes[0].instances) && SoundNodes(nodes[1..]))
  }

  lemma OwnNonNegative(i: InstanceNode)
    requires SoundInstance(i)
    ensures NonNegative(Own(i))
  {
  }

  lemma {:induction false} OwnBelowAll(podBearing: bool, instances: seq<InstanceNode>)
    requires SoundInstances(instances)
    ensures NonNegative(OwnClaim(podBearing, instances)) && AtMost(OwnClaim(podBearing, instances), InstancesClaim(podBearing, instances))
    decreases InstancesSize(instances), 2
  {
    if instances != [] {
      hide Own, NodesClaim;
      OwnNonNegative(instances[0]);
      NodesNonNegative(instances[0].children);
      OwnBelowAll(podBearing, instances[1..]);
    }
  }

  lemma {:induction false} NodesNonNegative(nodes: seq<ComponentNode>)
    requires SoundNodes(nodes)
    ensures NonNegative(NodesClaim(nodes))
    decreases NodesSize(nodes), 2
  {
    if nodes != [] {
      hide InstancesClaim;
      assert Size(nodes[0]) == 1 + InstancesSize(nodes[0].instances);
      OwnBelowAll(nodes[0].podBearing, nodes[0].instances);
      NodesNonNegative(nodes[1..]);
    }
  }

  /** The rows the component and its descendants can give are non-negative, and add up without wrapping. */
  predicate Fine(c: ComponentView)
    decreases c
  {
    NonNegative(OwnRequest(c)) && c.resources == Plus(OwnRequest(c), SumOf(c.children)) && AllFine(c.children)
  }

  predicate AllFine(components: seq<ComponentView>)
    decreases components
  {
    components == [] || (AllFine(components[..|components| - 1]) && Fine(components[|components| - 1]))
  }

  lemma {:induction false} FineRows(components: seq<ComponentView>)
    requires AllFine(components)
    ensures forall i :: 0 <= i < |ResourceRows(components)| ==> NonNegative(ResourceRows(components)[i].request)
    ensures SumRows(ResourceRows(components)) == SumOf(components)
    decreases components
  {
    if components != [] {
      var most, last := components[..|components| - 1], components[|components| - 1];
      FineRows(most);
      FineRows(last.children);
      SumRowsAppend(ResourceRows(most) + OwnRow(last), ResourceRows(last.children));
      SumRowsAppend(ResourceRows(most), OwnRow(last));
      OwnRowSum(last);
      hide OwnRequest, IsGrouping, SumRows;
      PlusAssociates(SumOf(most), OwnRequest(last), SumOf(last.children));
    }
  }

  lemma AppendFine(components: seq<ComponentView>, c: ComponentView, podBearing: bool)
    requires AllFine(components) && Fine(c)
    ensures AllFine(Append(components, c, podBearing))
  {
    assert (components + [c])[..|components|] == components;
    hide Fine;
  }

  /** A component under construction whose sums have not wrapped. */
  predicate Ledger(c: ComponentView, own: Resources, all: Resources) {
    c.resources == all && all == Plus(own, SumOf(c.children)) && NonNegative(own) && NonNegative(all) && AllFine(c.children)
  }

  lemma TakeKeepsLedger(c: ComponentView, own: Resources, all: Resources, child: ComponentView, podBearing: bool)
    requires Ledger(c, own, all) && Fine(child) && NonNegative(child.resources) && Fits(Plus(all, child.resources))
    ensures Ledger(TakeChild(c, child, podBearing), own, Plus(all, child.resources))
    ensures Ledger(Aggregate(c, child, podBearing), own, Plus(all, child.resources))
  {
    hide Wrap, Append, SumOf, AllFine, Fine, AddReplicas;
    AppendFine(c.children, child, podBearing);
    AppendSum(c.children, child, podBearing);
    WrapFits(Plus(all, child.resources));
    PlusAssociates(own, SumOf(c.children), child.resources);
  }

  lemma ChargeKeepsLedger(c: ComponentView, own: Resources, all: Resources, instance: InstanceNode)
    requires Ledger(c, own, all) && SoundInstance(instance) && Fits(Plus(all, Own(instance)))
    ensures Ledger(Charge(c, instance), Plus(own, Own(instance)), Plus(all, Own(instance)))
  {
    OwnNonNegative(instance);
    var claim := Own(instance);
    WrapFits(Plus(all, claim));
    assert Fits(claim);
    WrapFits(claim);
    hide Wrap, SumOf, AllFine, Times;
    if instance.request.None? {
      PlusNothing(all);
      PlusNothing(own);
    }
  }

  lemma LedgerFine(c: ComponentView, own: Resources, all: Resources)
    requires Ledger(c, own, all) && Fits(all)
    ensures Fine(c) && OwnRequest(c) == own && NonNegative(c.resources)
  {
    FineNonNegative(c.children);
    WrapFits(all);
    WrapFits(own);
    OwnRequestIsClaim(c, own, all);
    hide Wrap, OwnRequest, AllFine, SumOf;
  }

  lemma {:induction false} FineNonNegative(components: seq<ComponentView>)
    requires AllFine(components)
    ensures NonNegative(SumOf(components))
    decreases components
  {
    if components != [] {
      FineNonNegative(components[..|components| - 1]);
      FineNonNegative(components[|components| - 1].children);
      hide OwnRequest;
    }
  }

  lemma {:induction false} ChildrenFine(m: Matching, podBearing: bool, parent: ComponentView, nodes: seq<ComponentNode>, pods: seq<Pod>,
                                        own: Resources, all: Resources)
    requires BuildChildren(m, podBearing, parent, nodes, pods).Some?
    requires Ledger(parent, own, all) && SoundNodes(nodes) && Fits(Plus(all, NodesClaim(nodes)))
    ensures Ledger(BuildChildren(m, podBearing, parent, nodes, pods).value, own, Plus(all, NodesClaim(nodes)))
    decreases NodesSize(nodes), 3, 0
  {
    PlusNothing(all);
    if nodes != [] {
      var child := BuildComponent(m, nodes[0], pods).value;
      FirstFits(nodes, all);
      hide NodeClaim, BuildComponent, Fits, NonNegative, Ledger, Append, AddReplicas, Plus;
      ComponentFine(m, nodes[0], pods);
      TakeKeepsLedger(parent, own, all, child, nodes[0].podBearing);
      var next := if podBearing then TakeChild(parent, child, nodes[0].podBearing) else Aggregate(parent, child, nodes[0].podBearing);
      PlusAssociates(all, NodeClaim(nodes[0]), NodesClaim(nodes[1..]));
      ChildrenFine(m, podBearing, next, nodes[1..], pods, own, Plus(all, NodeClaim(nodes[0])));
    }
  }

  lemma FirstFits(nodes: seq<ComponentNode>, all: Resources)
    requires nodes != [] && SoundNodes(nodes) && NonNegative(all) && Fits(Plus(all, NodesClaim(nodes)))
    ensures Fits(NodeClaim(nodes[0])) && Fits(Plus(all, NodeClaim(nodes[0]))) && NonNegative(NodeClaim(nodes[0]))
  {
    NodesNonNegative(nodes[1..]);
    OwnBelowAll(nodes[0].podBearing, nodes[0].instances);
    hide InstancesClaim, OwnClaim;
  }

  /** The parts of a bounded non-negative claim are bounded. */
  lemma HeadFits(podBearing: bool, instances: seq<InstanceNode>, all: Resources)
    requires instances != [] && SoundInstances(instances) && NonNegative(all) && Fits(Plus(all, InstancesClaim(podBearing, instances)))
    ensures var own := if podBearing then Own(instances[0]) else NOTHING;
            Fits(Plus(all, own)) && Fits(Plus(Plus(all, own), NodesClaim(instances[0].children)))
    ensures Fits(InstancesClaim(podBearing, [instances[0]])) && Fits(Plus(all, InstancesClaim(podBearing, [instances[0]])))
    ensures SoundInstances([instances[0]]) && NonNegative(InstancesClaim(podBearing, [instances[0]]))
  {
    hide Own, NodesClaim, OwnClaim, SoundInstance, SoundNodes;
    OwnNonNegative(instances[0]);
    NodesNonNegative(instances[0].children);
    OwnBelowAll(podBearing, instances[1..]);
    SingleClaim(podBearing, instances);
    assert [instances[0]][1..] == [];
    OwnBelowAll(podBearing, [instances[0]]);
    HeadParts(if podBearing then Own(instances[0]) else NOTHING, NodesClaim(instances[0].children), InstancesClaim(podBearing, instances[1..]), all);
    PlusNothing(Plus(if podBearing then Own(instances[0]) else NOTHING, NodesClaim(instances[0].children)));
  }

  lemma HeadParts(own: Resources, children: Resources, rest: Resources, all: Resources)
    requires NonNegative(own) && NonNegative(children) && NonNegative(rest) && NonNegative(all)
    requires Fits(Plus(all, Plus(Plus(own, children), rest)))
    ensures Fits(Plus(all, own)) && Fits(Plus(Plus(all, own), children)) && Fits(Plus(own, children)) && Fits(Plus(all, Plus(own, children)))
    ensures NonNegative(Plus(own, children))
  {
  }

  lemma LedgerParts(c: ComponentView, own: Resources, all: Resources)
    requires Ledger(c, own, all)
    ensures NonNegative(own) && NonNegative(all)
  {
  }

  lemma {:induction false} GroupingFine(m: Matching, parent: ComponentView, instances: seq<InstanceNode>, pods: seq<Pod>, own: Resources, all: Resources)
    requires BuildGrouping(m, parent, instances, pods).Some?
    requires Ledger(parent, own, all) && SoundInstances(instances) && Fits(Plus(all, InstancesClaim(false, instances)))
    ensures Ledger(BuildGrouping(m, parent, instances, pods).value, own, Plus(all, InstancesClaim(false, instances)))
    decreases InstancesSize(instances), 1, 0
  {
    PlusNothing(all);
    if instances != [] {
      assert NonNegative(all);
      HeadFits(false, instances, all);
      hide Ledger, Fits, BuildChildren, NodesClaim, SoundNodes, SoundInstance, Plus, NonNegative;
      var claim := NodesClaim(instances[0].children);
      ChildrenFine(m, false, parent, instances[0].children, pods, own, all);
      var next := BuildChildren(m, false, parent, instances[0].children, pods).value;
      PlusNothing(claim);
      PlusAssociates(all, claim, InstancesClaim(false, instances[1..]));
      GroupingFine(m, next, instances[1..], pods, own, Plus(all, claim));
    }
  }

  lemma {:induction false} PodBearingFine(m: Matching, parent: ComponentView, instances: seq<InstanceNode>, pods: seq<Pod>, own: Resources, all: Resources)
    requires BuildPodBearing(m, parent, instances, pods).Some?
    requires Ledger(parent, own, all) && SoundInstances(instances) && Fits(Plus(all, InstancesClaim(true, instances)))
    ensures Ledger(BuildPodBearing(m, parent, instances, pods).value, Plus(own, OwnClaim(true, instances)), Plus(all, InstancesClaim(true, instances)))
    decreases InstancesSize(instances), 1, 0
  {
    PlusNothing(all);
    PlusNothing(own);
    if instances != [] {
      assert NonNegative(all);
      HeadFits(true, instances, all);
      hide Ledger, Fits, BuildChildren, NodesClaim, SoundNodes, Charge, Own, SoundInstance, Plus, NonNegative;
      var mine, claim := Own(instances[0]), NodesClaim(instances[0].children);
      ChargeKeepsLedger(parent, own, all, instances[0]);
      var charged := Charge(parent, instances[0]);
      ChildrenFine(m, true, charged, instances[0].children, pods, Plus(own, mine), Plus(all, mine));
      var next := BuildChildren(m, true, charged, instances[0].children, pods).value;
      PlusAssociates(own, mine, OwnClaim(true, instances[1..]));
      PlusAssociates(all, mine, claim);
      PlusAssociates(all, Plus(mine, claim), InstancesClaim(true, instances[1..]));
      PodBearingFine(m, next, instances[1..], pods, Plus(own, mine), Plus(Plus(all, mine), claim));
    }
  }

  lemma BlankLedger(name: Name, kind: Name, pods: seq<Pod>)
    ensures Ledger(Blank(name, kind), NOTHING, NOTHING) && Ledger(Attach(Blank(name, kind), pods), NOTHING, NOTHING)
  {
    hide Attach, Plus;
    AttachTotals(Blank(name, kind), pods);
    PlusNothing(NOTHING);
    assert SumOf([]) == NOTHING && AllFine([]);
    hide SumOf, AllFine;
  }

  /** A component of its own shows as a row exactly what its own instances claim, and rolls up its subtree's claim. */
  lemma {:induction false} PlainFine(m: Matching, podBearing: bool, name: Name, kind: Name, instances: seq<InstanceNode>, pods: seq<Pod>)
    requires BuildPlain(m, podBearing, name, kind, instances, pods).Some?
    requires SoundInstances(instances) && Fits(InstancesClaim(podBearing, instances))
    ensures var c := BuildPlain(m, podBearing, name, kind, instances, pods).value;
            Fine(c) && OwnRequest(c) == OwnClaim(podBearing, instances) && c.resources == InstancesClaim(podBearing, instances)
    decreases InstancesSize(instances), 2, 0
  {
    hide BuildPodBearing, BuildGrouping, InstancesClaim, Attach, Declared, Fine, SoundInstances, Fits, Plus, OwnRequest;
    var c := BuildPlain(m, podBearing, name, kind, instances, pods).value;
    BlankLedger(name, kind, pods);
    PlusNothing(InstancesClaim(podBearing, instances));
    PlusNothing(OwnClaim(podBearing, instances));
    if podBearing {
      PodBearingFine(m, Attach(Blank(name, kind), pods), instances, pods, NOTHING, NOTHING);
    } else {
      GroupingFine(m, Blank(name, kind), instances, pods, NOTHING, NOTHING);
      assert OwnClaim(false, instances) == NOTHING;
    }
    hide AllFine, SumOf;
    assert Ledger(c, OwnClaim(podBearing, instances), InstancesClaim(podBearing, instances));
    LedgerFine(c, OwnClaim(podBearing, instances), InstancesClaim(podBearing, instances));
  }

  lemma {:induction false} InstancesFine(m: Matching, node: ComponentNode, parent: ComponentView, instances: seq<InstanceNode>, claimed: seq<Pod>,
                                         all: Resources)
    requires BuildInstances(m, node, parent, instances, claimed).Some?
    requires Ledger(parent, NOTHING, all) && SoundInstances(instances) && Fits(Plus(all, InstancesClaim(node.podBearing, instances)))
    ensures Ledger(BuildInstances(m, node, parent, instances, claimed).value, NOTHING, Plus(all, InstancesClaim(node.podBearing, instances)))
    decreases InstancesSize(instances), 3, |instances|
  {
    hide Ledger, NodesClaim, Fits, BuildPlain, SoundNodes, SoundInstance, Aggregate, Fine, Plus, OwnClaim, OwnRequest, NonNegative;
    PlusNothing(all);
    if instances != [] {
      LedgerParts(parent, NOTHING, all);
      var instance := instances[0];
      SingleSize(instances);
      HeadFits(node.podBearing, instances, all);
      SingleClaim(node.podBearing, instances);
      hide InstancesClaim;
      var scoped := m.ofInstance(node.name, instance.instanceKey, instance.replicaKey, claimed).value;
      var title := m.title(node.name, instance.instanceKey, instance.replicaKey);
      PlainFine(m, node.podBearing, title, node.kind, [instance], scoped);
      var child := BuildPlain(m, node.podBearing, title, node.kind, [instance], scoped).value;
      TakeKeepsLedger(parent, NOTHING, all, child, node.podBearing);
      PlusAssociates(all, InstancesClaim(node.podBearing, [instance]), InstancesClaim(node.podBearing, instances[1..]));
      InstancesFine(m, node, Aggregate(parent, child, node.podBearing), instances[1..], claimed, Plus(all, child.resources));
    }
  }

  lemma {:induction false} ComponentFine(m: Matching, node: ComponentNode, pods: seq<Pod>)
    requires BuildComponent(m, node, pods).Some? && SoundInstances(node.instances) && Fits(NodeClaim(node))
    ensures var c := BuildComponent(m, node, pods).value;
            && Fine(c) && c.resources == NodeClaim(node)
            && OwnRequest(c) == if IsMultiInstance(node.instances) then NOTHING else OwnClaim(node.podBearing, node.instances)
    decreases Size(node), 2, 0
  {
    hide BuildInstances, BuildPlain, InstancesClaim, Fine, Fits, SoundInstances, OwnClaim, Plus, OwnRequest;
    var claimed := if node.podBearing then m.ofType(node.name, pods) else Some(pods);
    if !IsMultiInstance(node.instances) {
      PlainFine(m, node.podBearing, node.name, node.kind, node.instances, claimed.value);
    } else {
      BlankLedger(node.name, node.kind, pods);
      PlusNothing(NodeClaim(node));
      InstancesFine(m, node, Blank(node.name, node.kind), node.instances, claimed.value, NOTHING);
      LedgerFine(BuildComponent(m, node, pods).value, NOTHING, NodeClaim(node));
      hide SumOf, AllFine;
    }
  }

  // ---------------------------------------------------------------- the whole view

  /** Everything the workload requests, read off its definition alone. */
  function ViewClaim(root: Option<Root>, nodes: seq<ComponentNode>): Resources {
    Plus(if root.Some? then InstancesClaim(true, root.value.instances) else NOTHING, NodesClaim(nodes))
  }

  lemma {:induction false} TopClaim(m: Matching, done: seq<ComponentView>, nodes: seq<ComponentNode>, pods: seq<Pod>, all: Resources)
    requires BuildTop(m, done, nodes, pods).Some? && Wrap(SumOf(done)) == Wrap(all)
    ensures Wrap(SumOf(BuildTop(m, done, nodes, pods).value)) == Wrap(Plus(all, NodesClaim(nodes)))
    decreases |nodes|
  {
    PlusNothing(all);
    if nodes != [] {
      var component, claim := BuildComponent(m, nodes[0], pods).value, NodeClaim(nodes[0]);
      ComponentBooks(m, nodes[0], pods);
      AppendSum(done, component, nodes[0].podBearing);
      WrapPlus(claim, NOTHING);
      WrapPlusSame(component.resources, claim, SumOf(done));
      WrapPlusSame(SumOf(done), all, claim);
      PlusAssociates(all, claim, NodesClaim(nodes[1..]));
      hide Wrap, Append, SumOf, Plus, BuildComponent, NodeClaim;
      TopClaim(m, Append(done, component, nodes[0].podBearing), nodes[1..], pods, Plus(all, claim));
    }
  }

  /** Whatever the pods and their matching, the view's total is what the definition claims, and so is the sum of its
      rows: modulo the counters' width always. */
  lemma ViewTotalIsClaim(m: Matching, root: Option<Root>, nodes: seq<ComponentNode>, pods: seq<Pod>)
    requires BuildView(m, root, nodes, pods).Some?
    ensures var components := BuildView(m, root, nodes, pods).value;
            && Wrap(Total(components)) == Wrap(ViewClaim(root, nodes))
            && Wrap(SumRows(ResourceRows(components))) == Wrap(ViewClaim(root, nodes))
  {
    var components := BuildView(m, root, nodes, pods).value;
    TotalIsSum(components);
    RowsSumToTotal(components);
    hide Total, ResourceRows, SumRows, Wrap, BuildTop, InstancesClaim, NodesClaim, Plus;
    if root.Some? {
      var claimed := m.ofType(root.value.name, pods).value;
      PlainBooks(m, true, root.value.name, root.value.kind, root.value.instances, claimed);
      var c := BuildPlain(m, true, root.value.name, root.value.kind, root.value.instances, claimed).value;
      hide BuildPlain;
      var claim := InstancesClaim(true, root.value.instances);
      SumOne(c);
      WrapPlus(claim, NOTHING);
      TopClaim(m, [c], nodes, pods, claim);
    } else {
      TopClaim(m, [], nodes, pods, NOTHING);
    }
  }

  lemma SumOne(c: ComponentView)
    ensures SumOf([c]) == c.resources
  {
    assert [c][..0] == [];
    PlusNothing(c.resources);
  }

  lemma {:induction false} TopFine(m: Matching, done: seq<ComponentView>, nodes: seq<ComponentNode>, pods: seq<Pod>)
    requires BuildTop(m, done, nodes, pods).Some? && AllFine(done) && SoundNodes(nodes)
    requires NonNegative(SumOf(done)) && Fits(Plus(SumOf(done), NodesClaim(nodes)))
    ensures var components := BuildTop(m, done, nodes, pods).value;
            AllFine(components) && SumOf(components) == Plus(SumOf(done), NodesClaim(nodes))
    decreases |nodes|
  {
    hide BuildComponent, Fine, OwnRequest, OwnClaim, Append, SumOf, AllFine, NodeClaim, Plus;
    PlusNothing(SumOf(done));
    if nodes != [] {
      var component := BuildComponent(m, nodes[0], pods).value;
      FirstFits(nodes, SumOf(done));
      ComponentFine(m, nodes[0], pods);
      AppendFine(done, component, nodes[0].podBearing);
      AppendSum(done, component, nodes[0].podBearing);
      PlusAssociates(SumOf(done), NodeClaim(nodes[0]), NodesClaim(nodes[1..]));
      SumNonNegative(SumOf(done), NodeClaim(nodes[0]));
      TopFine(m, Append(done, component, nodes[0].podBearing), nodes[1..], pods);
    }
  }

  lemma SumNonNegative(a: Resources, b: Resources)
    requires NonNegative(a) && NonNegative(b)
    ensures NonNegative(Plus(a, b))
  {
  }

  lemma RootFine(m: Matching, root: Root, pods: seq<Pod>)
    requires BuildPlain(m, true, root.name, root.kind, root.instances, pods).Some?
    requires SoundInstances(root.instances) && Fits(InstancesClaim(true, root.instances))
    ensures var c := BuildPlain(m, true, root.name, root.kind, root.instances, pods).value;
            AllFine([c]) && SumOf([c]) == InstancesClaim(true, root.instances) && NonNegative(SumOf([c]))
  {
    hide BuildPlain, InstancesClaim, OwnClaim, OwnRequest, SoundInstances;
    PlainFine(m, true, root.name, root.kind, root.instances, pods);
    var c := BuildPlain(m, true, root.name, root.kind, root.instances, pods).value;
    SumOne(c);
    ClaimNonNegative(true, root.instances);
    assert [c][..0] == [];
    hide Fine;
  }

  lemma ClaimNonNegative(podBearing: bool, instances: seq<InstanceNode>)
    requires SoundInstances(instances)
    ensures NonNegative(InstancesClaim(podBearing, instances))
  {
    OwnBelowAll(podBearing, instances);
    hide OwnClaim, InstancesClaim, SoundInstances;
  }

  /** And exactly, when nothing is negative and the claim fits its counters: no partial sum wraps, every row is
      non-negative, and the rows and the total are the claim. */
  lemma ViewIsExact(m: Matching, root: Option<Root>, nodes: seq<ComponentNode>, pods: seq<Pod>)
    requires BuildView(m, root, nodes, pods).Some?
    requires (root.Some? ==> SoundInstances(root.value.instances)) && SoundNodes(nodes) && Fits(ViewClaim(root, nodes))
    ensures var components := BuildView(m, root, nodes, pods).value;
            && SumOf(components) == ViewClaim(root, nodes) && SumRows(ResourceRows(components)) == ViewClaim(root, nodes)
            && forall i :: 0 <= i < |ResourceRows(components)| ==> NonNegative(ResourceRows(components)[i].request)
  {
    hide BuildPlain, InstancesClaim, NodesClaim, BuildTop, ResourceRows, SumRows, AllFine, SumOf, SoundInstances, SoundNodes;
    var components := BuildView(m, root, nodes, pods).value;
    NodesNonNegative(nodes);
    if root.Some? {
      var claimed := m.ofType(root.value.name, pods).value;
      ClaimNonNegative(true, root.value.instances);
      RootFine(m, root.value, claimed);
      TopFine(m, [BuildPlain(m, true, root.value.name, root.value.kind, root.value.instances, claimed).value], nodes, pods);
    } else {
      NothingBuilt();
      TopFine(m, [], nodes, pods);
    }
    FineRows(components);
  }

  lemma NothingBuilt()
    ensures AllFine([]) && SumOf([]) == NOTHING
  {
  }

  // ---------------------------------------------------------------- whose Pods, and how many replicas

  /** A scale's replicas count, else its minimum, else one replica; and what one replica requests is charged that often. */
  lemma ChargedReplicas(instance: InstanceNode, request: Resources, n: int)
    requires instance.request == Some(request)
    ensures instance.scale.Some? && instance.scale.value.replicas == Some(n) ==> Own(instance) == Resources(request.gpus * n, request.cpu * n, request.memory * n)
    ensures instance.scale.Some? && instance.scale.value.replicas.None? && instance.scale.value.minReplicas == Some(n) ==>
              Own(instance) == Resources(request.gpus * n, request.cpu * n, request.memory * n)
    ensures instance.scale.None? || (instance.scale.value.replicas.None? && instance.scale.value.minReplicas.None?) ==> Own(instance) == request
  {
  }

  lemma {:induction false} ChildrenKeepPods(m: Matching, podBearing: bool, parent: ComponentView, nodes: seq<ComponentNode>, pods: seq<Pod>)
    requires BuildChildren(m, podBearing, parent, nodes, pods).Some?
    ensures var c := BuildChildren(m, podBearing, parent, nodes, pods).value; c.pods == parent.pods && c.name == parent.name && c.kind == parent.kind
    decreases |nodes|
  {
    if nodes != [] {
      var child := BuildComponent(m, nodes[0], pods).value;
      hide BuildComponent, Append, AddReplicas, Add;
      ChildrenKeepPods(m, podBearing,
                       if podBearing then TakeChild(parent, child, nodes[0].podBearing) else Aggregate(parent, child, nodes[0].podBearing),
                       nodes[1..], pods);
    }
  }

  lemma {:induction false} PodBearingKeepsPods(m: Matching, parent: ComponentView, instances: seq<InstanceNode>, pods: seq<Pod>)
    requires BuildPodBearing(m, parent, instances, pods).Some?
    ensures var c := BuildPodBearing(m, parent, instances, pods).value; c.pods == parent.pods && c.name == parent.name && c.kind == parent.kind
    decreases |instances|
  {
    if instances != [] {
      var next := BuildChildren(m, true, Charge(parent, instances[0]), instances[0].children, pods).value;
      hide BuildChildren, Add;
      ChildrenKeepPods(m, true, Charge(parent, instances[0]), instances[0].children, pods);
      PodBearingKeepsPods(m, next, instances[1..], pods);
    }
  }

  /** A pod-bearing component shows exactly the Pods it was given, ordered by name, under its own name and kind. */
  lemma PlainShowsItsPods(m: Matching, name: Name, kind: Name, instances: seq<InstanceNode>, pods: seq<Pod>)
    requires BuildPlain(m, true, name, kind, instances, pods).Some?
    ensures var c := BuildPlain(m, true, name, kind, instances, pods).value;
            c.name == name && c.kind == kind && NameOrdered(c.pods) && multiset(c.pods) == multiset(pods)
  {
    AttachedPods(name, kind, pods);
    AttachNames(name, kind, pods);
    PodBearingKeepsPods(m, Attach(Blank(name, kind), pods), instances, pods);
    hide Attach, BuildPodBearing, NameOrdered, Wrap32, NodesOf;
  }

  lemma {:induction false} AttachNames(name: Name, kind: Name, pods: seq<Pod>)
    ensures Counted(Blank(name, kind), pods).name == name && Counted(Blank(name, kind), pods).kind == kind
    ensures Attach(Blank(name, kind), pods).name == name && Attach(Blank(name, kind), pods).kind == kind
    decreases |pods|
  {
    hide SortedByName, Wrap32;
    if pods != [] {
      AttachNames(name, kind, pods[..|pods| - 1]);
    }
  }

  /** Child `i` shows exactly the Pods that match instance `i`. */
  predicate ShowsInstance(m: Matching, node: ComponentNode, instance: InstanceNode, claimed: seq<Pod>, child: ComponentView) {
    var scoped := m.ofInstance(node.name, instance.instanceKey, instance.replicaKey, claimed);
    && scoped.Some? && multiset(child.pods) == multiset(scoped.value)
    && child.name == m.title(node.name, instance.instanceKey, instance.replicaKey) && child.kind == node.kind
  }

  lemma {:induction false} InstancesShow(m: Matching, node: ComponentNode, parent: ComponentView, instances: seq<InstanceNode>, claimed: seq<Pod>)
    requires node.podBearing && BuildInstances(m, node, parent, instances, claimed).Some?
    ensures var c := BuildInstances(m, node, parent, instances, claimed).value;
            && |c.children| == |parent.children| + |instances| && c.children[..|parent.children|] == parent.children
            && forall i :: 0 <= i < |instances| ==> ShowsInstance(m, node, instances[i], claimed, c.children[|parent.children| + i])
    decreases |instances|
  {
    hide ShowsInstance, AddReplicas, Add;
    if instances != [] {
      var instance := instances[0];
      SingleSize(instances);
      var scoped := m.ofInstance(node.name, instance.instanceKey, instance.replicaKey, claimed).value;
      var title := m.title(node.name, instance.instanceKey, instance.replicaKey);
      var child := BuildPlain(m, node.podBearing, title, node.kind, [instance], scoped).value;
      PlainShowsItsPods(m, title, node.kind, [instance], scoped);
      var next := Aggregate(parent, child, node.podBearing);
      hide BuildPlain, NameOrdered;
      InstancesShow(m, node, next, instances[1..], claimed);
      assert ShowsInstance(m, node, instance, claimed, child) by { InstanceShown(m, node, instance, claimed, child, scoped, title); }
      var c := BuildInstances(m, node, parent, instances, claimed).value;
      assert c == BuildInstances(m, node, next, instances[1..], claimed).value;
      hide BuildInstances;
      assert next.children == parent.children + [child];
      assert c.children[|parent.children|] == c.children[..|next.children|][|parent.children|] == child;
      assert c.children[..|parent.children|] == c.children[..|next.children|][..|parent.children|];
      forall i | 0 <= i < |instances| ensures ShowsInstance(m, node, instances[i], claimed, c.children[|parent.children| + i]) {
        if i > 0 {
          assert ShowsInstance(m, node, instances[1..][i - 1], claimed, c.children[|next.children| + (i - 1)]);
        }
      }
    }
  }

  lemma InstanceShown(m: Matching, node: ComponentNode, instance: InstanceNode, claimed: seq<Pod>, child: ComponentView, scoped: seq<Pod>, title: Name)
    requires m.ofInstance(node.name, instance.instanceKey, instance.replicaKey, claimed) == Some(scoped)
    requires m.title(node.name, instance.instanceKey, instance.replicaKey) == title
    requires multiset(child.pods) == multiset(scoped) && child.name == title && child.kind == node.kind
    ensures ShowsInstance(m, node, instance, claimed, child)
  {
  }

  /** A pod-bearing component with instances has one row for each, in order, each with the Pods of its type that match the instance. */
  lemma InstancesGetTheirPods(m: Matching, node: ComponentNode, pods: seq<Pod>)
    requires node.podBearing && IsMultiInstance(node.instances) && BuildComponent(m, node, pods).Some?
    ensures var c, claimed := BuildComponent(m, node, pods).value, m.ofType(node.name, pods);
            && claimed.Some? && |c.children| == |node.instances|
            && forall i :: 0 <= i < |node.instances| ==> ShowsInstance(m, node, node.instances[i], claimed.value, c.children[i])
  {
    hide BuildInstances, ShowsInstance, BuildPlain;
    var claimed := m.ofType(node.name, pods);
    if claimed.Some? {
      InstancesShow(m, node, Blank(node.name, node.kind), node.instances, claimed.value);
    }
  }
}
