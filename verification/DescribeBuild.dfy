/** The describe view as the program builds and prints it: accumulating into one component at a time. */
module DescribeBuild {
  import opened Basics
  import opened Describe

  /** ownRequest. */
  method ChargedRequest(c: ComponentView) returns (request: Resources)
    ensures request == OwnRequest(c)
  {
    request := c.resources;
    for i := 0 to |c.children|
      invariant request == SubtractAll(c.resources, c.children[..i])
    {
      assert c.children[..i + 1][..i] == c.children[..i];
      request := Subtract(request, c.children[i].resources);
    }
    assert c.children[..|c.children|] == c.children;
  }

  /** isGrouping. */
  method OnlyRepeats(c: ComponentView) returns (grouping: bool)
    ensures grouping == IsGrouping(c)
  {
    if c.children == [] || c.pods != [] {
      return false;
    }
    var replicas := 0;
    for i := 0 to |c.children|
      invariant replicas == DesiredSum(c.children[..i])
    {
      assert c.children[..i + 1][..i] == c.children[..i];
      replicas := Wrap32(replicas + c.children[i].replicas.desired);
    }
    assert c.children[..|c.children|] == c.children;
    var own := ChargedRequest(c);
    grouping := own == NOTHING && c.replicas.desired == replicas;
  }

  /** resourceRows: the rows sum to the components' total, whatever the tree. */
  method RowsOf(components: seq<ComponentView>) returns (rows: seq<Row>)
    ensures rows == ResourceRows(components)
    ensures Wrap(SumRows(rows)) == Wrap(SumOf(components))
    decreases components
  {
    rows := [];
    for i := 0 to |components|
      invariant rows == ResourceRows(components[..i])
    {
      hide SumRows, SumOf, IsGrouping, OwnRequest;
      var component := components[i];
      var grouping := OnlyRepeats(component);
      if !grouping {
        var own := ChargedRequest(component);
        rows := rows + [Row(component.name, component.replicas.desired, own)];
      }
      var below := RowsOf(component.children);
      rows := rows + below;
      assert components[..i + 1][..i] == components[..i] && components[..i + 1][i] == component;
    }
    assert components[..|components|] == components;
    RowsSumToTotal(components);
  }

  /** attach. */
  method AttachPods(c: ComponentView, pods: seq<Pod>) returns (attached: ComponentView)
    ensures attached == Attach(c, pods)
  {
    attached := c;
    for i := 0 to |pods|
      invariant attached == Counted(c, pods[..i])
    {
      var pod := pods[i];
      assert pods[..i + 1][..i] == pods[..i];
      var replicas := attached.replicas.(current := Wrap32(attached.replicas.current + 1));
      if pod.ready {
        replicas := replicas.(ready := Wrap32(replicas.ready + 1));
      }
      attached := attached.(replicas := replicas, pods := attached.pods + [pod]);
      if pod.node != 0 {
        attached := attached.(nodes := attached.nodes + {pod.node});
      }
    }
    assert pods[..|pods|] == pods;
    attached := attached.(pods := SortedByName(attached.pods));
  }

  /** buildComponent: pods are matched first, then one component, or one per instance under a parent that adds them up. */
  method BuildOne(m: Matching, node: ComponentNode, pods: seq<Pod>) returns (built: Option<ComponentView>)
    ensures built == BuildComponent(m, node, pods)
    decreases Size(node), 2, 0
  {
    var claimed := pods;
    if node.podBearing {
      var matched := m.ofType(node.name, pods);
      if matched.None? {
        return None;
      }
      claimed := matched.value;
    }
    if !IsMultiInstance(node.instances) {
      built := BuildFlat(m, node.podBearing, node.name, node.kind, node.instances, claimed);
      return;
    }
    var parent := Blank(node.name, node.kind);
    var i := 0;
    while i < |node.instances|
      invariant i <= |node.instances| && InstancesSize(node.instances[i..]) <= InstancesSize(node.instances)
      invariant BuildInstances(m, node, parent, node.instances[i..], claimed)
             == BuildInstances(m, node, Blank(node.name, node.kind), node.instances, claimed)
    {
      var instance := node.instances[i];
      var rest := node.instances[i..];
      assert rest[0] == instance && rest[1..] == node.instances[i + 1..];
      SingleSize(rest);
      var scoped := m.ofInstance(node.name, instance.instanceKey, instance.replicaKey, claimed);
      if scoped.None? {
        return None;
      }
      var title := m.title(node.name, instance.instanceKey, instance.replicaKey);
      var child := BuildFlat(m, node.podBearing, title, node.kind, [instance], scoped.value);
      if child.None? {
        return None;
      }
      parent := Aggregate(parent, child.value, node.podBearing);
      i := i + 1;
    }
    built := Some(parent);
  }

  /** buildPodBearingComponent or buildGroupingComponent. */
  method BuildFlat(m: Matching, podBearing: bool, name: Name, kind: Name, instances: seq<InstanceNode>, pods: seq<Pod>)
    returns (built: Option<ComponentView>)
    ensures built == BuildPlain(m, podBearing, name, kind, instances, pods)
    decreases InstancesSize(instances), 2, 0
  {
    var component := Blank(name, kind);
    if podBearing {
      component := AttachPods(component, pods);
    }
    var start := component;
    var i := 0;
    while i < |instances|
      invariant i <= |instances| && InstancesSize(instances[i..]) <= InstancesSize(instances)
      invariant podBearing ==> BuildPodBearing(m, component, instances[i..], pods) == BuildPodBearing(m, start, instances, pods)
      invariant !podBearing ==> BuildGrouping(m, component, instances[i..], pods) == BuildGrouping(m, start, instances, pods)
    {
      var instance := instances[i];
      var rest := instances[i..];
      assert rest[0] == instance && rest[1..] == instances[i + 1..];
      SingleSize(rest);
      if podBearing {
        component := Charge(component, instance);
      }
      var next := BuildUnder(m, podBearing, component, instance.children, pods);
      if next.None? {
        return None;
      }
      component := next.value;
      i := i + 1;
    }
    if !podBearing && component.children == [] {
      component := AddDeclared(component, instances);
    }
    built := Some(component);
  }

  method AddDeclared(c: ComponentView, instances: seq<InstanceNode>) returns (r: ComponentView)
    ensures r == c.(replicas := Declared(c.replicas, instances))
  {
    var replicas := c.replicas;
    for i := 0 to |instances|
      invariant replicas == Declared(c.replicas, instances[..i])
    {
      assert instances[..i + 1][..i] == instances[..i];
      if instances[i].scale.Some? {
        replicas := replicas.(desired := Wrap32(replicas.desired + ReplicasOf(instances[i].scale)));
      }
    }
    assert instances[..|instances|] == instances;
    r := c.(replicas := replicas);
  }

  /** The inner loop of both builders: one child after another joins the component. */
  method BuildUnder(m: Matching, podBearing: bool, parent: ComponentView, nodes: seq<ComponentNode>, pods: seq<Pod>)
    returns (built: Option<ComponentView>)
    ensures built == BuildChildren(m, podBearing, parent, nodes, pods)
    decreases NodesSize(nodes), 3, 0
  {
    var component := parent;
    var i := 0;
    while i < |nodes|
      invariant i <= |nodes| && NodesSize(nodes[i..]) <= NodesSize(nodes)
      invariant BuildChildren(m, podBearing, component, nodes[i..], pods) == BuildChildren(m, podBearing, parent, nodes, pods)
    {
      var node := nodes[i];
      var rest := nodes[i..];
      assert rest[0] == node && rest[1..] == nodes[i + 1..];
      var child := BuildOne(m, node, pods);
      if child.None? {
        return None;
      }
      component := if podBearing then TakeChild(component, child.value, node.podBearing) else Aggregate(component, child.value, node.podBearing);
      i := i + 1;
    }
    built := Some(component);
  }

  /** ResolveDescribe: the components, and the total the report prints last. */
  method ResolveDescribe(m: Matching, root: Option<Root>, nodes: seq<ComponentNode>, pods: seq<Pod>)
    returns (components: Option<seq<ComponentView>>, total: Resources)
    ensures components == BuildView(m, root, nodes, pods)
    ensures components.Some? ==> total == Total(components.value) && Wrap(total) == Wrap(ViewClaim(root, nodes))
  {
    total := NOTHING;
    var done: seq<ComponentView> := [];
    if root.Some? {
      var claimed := m.ofType(root.value.name, pods);
      if claimed.None? {
        return None, NOTHING;
      }
      var component := BuildFlat(m, true, root.value.name, root.value.kind, root.value.instances, claimed.value);
      if component.None? {
        return None, NOTHING;
      }
      done := Append(done, component.value, true);
      assert done == [component.value];
    }
    var start := done;
    assert BuildView(m, root, nodes, pods) == BuildTop(m, start, nodes, pods);
    hide BuildComponent, ViewClaim, BuildView;
    for i := 0 to |nodes|
      invariant BuildTop(m, done, nodes[i..], pods) == BuildTop(m, start, nodes, pods)
    {
      var rest := nodes[i..];
      assert rest[0] == nodes[i] && rest[1..] == nodes[i + 1..];
      var component := BuildOne(m, nodes[i], pods);
      if component.None? {
        return None, NOTHING;
      }
      done := Append(done, component.value, nodes[i].podBearing);
    }
    for i := 0 to |done|
      invariant total == Total(done[..i])
    {
      assert done[..i + 1][..i] == done[..i];
      total := Add(total, done[i].resources);
    }
    assert done[..|done|] == done;
    ViewTotalIsClaim(m, root, nodes, pods);
    components := Some(done);
  }
}
