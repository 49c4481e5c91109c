/** The scale of a component subtree for gang scheduling, in 32-bit arithmetic. */
module GangScale {
  import opened Basics

  const TWO_31 := 0x8000_0000
  const TWO_32 := 0x1_0000_0000

  function Wrap32(x: int): int { (x + TWO_31) % TWO_32 - TWO_31 }

  /** What a definition says about one instance's replicas. Absent values are None. */
  datatype Scale = Scale(minReplicas: Option<int>, replicas: Option<int>)

  /** getEffectiveMinReplicas: zero means the scale is defined at a higher level. */
  function Effective(scale: Scale): nat {
    if scale.minReplicas.Some? && scale.minReplicas.value > 0 then scale.minReplicas.value
    else if scale.replicas.Some? && scale.replicas.value > 0 then scale.replicas.value
    else 0
  }

  /** A positive minimum counts, else a positive replica count, else nothing: a minimum outranks any replica count. */
  lemma EffectiveIs(scale: Scale, n: int)
    ensures scale.minReplicas == Some(n) && n >= 1 ==> Effective(scale) == n
    ensures (scale.minReplicas.None? || scale.minReplicas.value < 1) && scale.replicas == Some(n) && n >= 1 ==> Effective(scale) == n
    ensures Effective(scale) == 0 <==> (forall k :: Some(k) in {scale.minReplicas, scale.replicas} ==> k < 1)
  {
    assert scale.minReplicas in {scale.minReplicas, scale.replicas} && scale.replicas in {scale.minReplicas, scale.replicas};
    if Effective(scale) == 0 {
      forall k | Some(k) in {scale.minReplicas, scale.replicas} ensures k < 1 { }
    }
  }

  /** A component's instances by id; a definition without scales has none. `failed` says reading them fails. */
  datatype Component = Component(scales: map<Name, Scale>, failed: bool)

  datatype Structure = Structure(components: map<Name, Component>, children: map<Name, seq<Name>>)

  /** Ownership has no cycle: every child ranks below its parent. */
  predicate Acyclic(s: Structure, rank: Name -> nat) {
    forall p | p in s.children :: forall i | 0 <= i < |s.children[p]| :: rank(s.children[p][i]) < rank(p)
  }

  function ChildrenOf(s: Structure, name: Name): seq<Name> {
    if name in s.children then s.children[name] else []
  }

  datatype SubtreeRoot = SubtreeRoot(component: Name, instance: Option<Name>)

  // ---------------------------------------------------------------- unbounded sums

  function EffectiveAll(scales: map<Name, Scale>): map<Name, nat> {
    map id | id in scales :: Effective(scales[id])
  }

  /** The sum of a map's values, whatever order they are visited in. */
  ghost function Sum(m: map<Name, nat>): nat
    decreases |m|
  {
    if m == map[] then 0
    else
      var id :| id in m;
      m[id] + Sum(m - {id})
  }

  lemma {:induction false} SumWithout(m: map<Name, nat>, id: Name)
    requires id in m
    ensures Sum(m) == m[id] + Sum(m - {id})
    decreases |m|
  {
    var first :| first in m && Sum(m) == m[first] + Sum(m - {first});
    if first != id {
      SumWithout(m - {first}, id);
      SumWithout(m - {id}, first);
      assert m - {first} - {id} == m - {id} - {first};
    }
  }

  lemma {:induction false} SumGrows(m: map<Name, nat>, n: map<Name, nat>)
    requires m.Keys == n.Keys && forall id :: id in m ==> m[id] <= n[id]
    ensures Sum(m) <= Sum(n)
    decreases |m|
  {
    if m != map[] {
      var id :| id in m;
      SumWithout(m, id);
      SumWithout(n, id);
      SumGrows(m - {id}, n - {id});
    }
  }

  /** The component's own scale: one instance's, or all of them. None when reading fails or the instance is unknown. */
  ghost function Own(s: Structure, name: Name, root: SubtreeRoot): Option<nat> {
    if name !in s.components || s.components[name].failed then None
    else
      var scales := s.components[name].scales;
      if root.component == name && root.instance.Some? then
        if root.instance.value in scales then Some(Effective(scales[root.instance.value])) else None
      else Some(Sum(EffectiveAll(scales)))
  }

  function Larger(a: nat, b: nat): nat { if a < b then b else a }

  /** The closed form: nothing if nothing is declared, otherwise own scale times children's, each at least one. */
  function Combine(own: nat, kids: nat): nat {
    if own == 0 && kids == 0 then 0 else Larger(1, own) * Larger(1, kids)
  }

  /** The scale over unbounded integers. */
  ghost function Closed(s: Structure, rank: Name -> nat, name: Name, root: SubtreeRoot): Option<nat>
    requires Acyclic(s, rank)
    decreases rank(name), 1, 0
  {
    var own := Own(s, name, root);
    var kids := ClosedSum(s, rank, name, ChildrenOf(s, name), root);
    if own.None? || kids.None? then None else Some(Combine(own.value, kids.value))
  }

  ghost function ClosedSum(s: Structure, rank: Name -> nat, parent: Name, names: seq<Name>, root: SubtreeRoot): Option<nat>
    requires Acyclic(s, rank) && forall i :: 0 <= i < |names| ==> rank(names[i]) < rank(parent)
    decreases rank(parent), 0, |names|
  {
    if names == [] then Some(0)
    else
      var before := ClosedSum(s, rank, parent, names[..|names| - 1], root);
      var last := Closed(s, rank, names[|names| - 1], root);
      if before.None? || last.None? then None else Some(before.value + last.value)
  }

  // ---------------------------------------------------------------- the recursion in 32 bits

  lemma WrapAdd(a: int, b: int)
    ensures Wrap32(Wrap32(a) + b) == Wrap32(a + b) && Wrap32(a + Wrap32(b)) == Wrap32(a + b)
  {
  }

  lemma WrapFits(a: nat)
    requires a < TWO_31
    ensures Wrap32(a) == a
  {
  }

  /** What calculateSubtreeScaleByDefinition computes from 32-bit own scale and children sum. */
  function Combine32(leaf: bool, own: int, kids: int): int {
    if leaf then own
    else if kids == 0 then own
    else if own == 0 then kids
    else Wrap32(own * kids)
  }

  ghost function Scale32(s: Structure, rank: Name -> nat, name: Name, root: SubtreeRoot): Option<int>
    requires Acyclic(s, rank)
    decreases rank(name), 1, 0
  {
    var own := Own(s, name, root);
    var children := ChildrenOf(s, name);
    var kids := Sum32(s, rank, name, children, root);
    if own.None? || kids.None? then None else Some(Combine32(children == [], Wrap32(own.value), kids.value))
  }

  ghost function Sum32(s: Structure, rank: Name -> nat, parent: Name, names: seq<Name>, root: SubtreeRoot): Option<int>
    requires Acyclic(s, rank) && forall i :: 0 <= i < |names| ==> rank(names[i]) < rank(parent)
    decreases rank(parent), 0, |names|
  {
    if names == [] then Some(0)
    else
      var before := Sum32(s, rank, parent, names[..|names| - 1], root);
      var last := Scale32(s, rank, names[|names| - 1], root);
      if before.None? || last.None? then None else Some(Wrap32(before.value + last.value))
  }

  /** The result is at least each of its parts, so nothing on the way to it is larger. */
  lemma PartsBelow(own: nat, kids: nat)
    ensures own <= Combine(own, kids) && kids <= Combine(own, kids)
    ensures own > 0 && kids > 0 ==> Combine(own, kids) == own * kids
  {
    if own > 0 && kids > 0 {
      ProductGrows(own, kids);
    }
  }

  lemma ProductGrows(a: nat, b: nat)
    requires a > 0 && b > 0
    ensures a <= a * b && b <= a * b
  {
    assert a * b == a + a * (b - 1);
    assert a * b == b + (a - 1) * b;
  }

  /** The recursion fails exactly when the closed form does. */
  lemma {:induction false} SameFailures(s: Structure, rank: Name -> nat, name: Name, root: SubtreeRoot)
    requires Acyclic(s, rank)
    ensures Scale32(s, rank, name, root).None? <==> Closed(s, rank, name, root).None?
    decreases rank(name), 1, 0
  {
    SameSumFailures(s, rank, name, ChildrenOf(s, name), root);
  }

  lemma {:induction false} SameSumFailures(s: Structure, rank: Name -> nat, parent: Name, names: seq<Name>, root: SubtreeRoot)
    requires Acyclic(s, rank) && forall i :: 0 <= i < |names| ==> rank(names[i]) < rank(parent)
    ensures Sum32(s, rank, parent, names, root).None? <==> ClosedSum(s, rank, parent, names, root).None?
    decreases rank(parent), 0, |names|
  {
    if names != [] {
      SameSumFailures(s, rank, parent, names[..|names| - 1], root);
      SameFailures(s, rank, names[|names| - 1], root);
    }
  }

  /** If the scale fits in 32 bits, no sum or product on the way overflowed: the recursion gives exactly the closed form. */
  lemma {:induction false} FitsIsExact(s: Structure, rank: Name -> nat, name: Name, root: SubtreeRoot)
    requires Acyclic(s, rank) && Closed(s, rank, name, root).Some? && Closed(s, rank, name, root).value < TWO_31
    ensures Scale32(s, rank, name, root) == Some(Closed(s, rank, name, root).value)
    ensures Own(s, name, root).value < TWO_31 && ClosedSum(s, rank, name, ChildrenOf(s, name), root).value < TWO_31
    decreases rank(name), 1, 0
  {
    var own := Own(s, name, root).value;
    var kids := ClosedSum(s, rank, name, ChildrenOf(s, name), root).value;
    PartsBelow(own, kids);
    hide Combine, Combine32, Wrap32, Own;
    SumFitsIsExact(s, rank, name, ChildrenOf(s, name), root);
    WrapFits(own);
    CombineAgrees(ChildrenOf(s, name) == [], own, kids);
  }

  lemma CombineAgrees(leaf: bool, own: nat, kids: nat)
    requires Combine(own, kids) < TWO_31 && (leaf ==> kids == 0)
    ensures Combine32(leaf, own, kids) == Combine(own, kids)
  {
    PartsBelow(own, kids);
    if own > 0 && kids > 0 {
      WrapFits(own * kids);
    }
  }

  lemma {:induction false} SumFitsIsExact(s: Structure, rank: Name -> nat, parent: Name, names: seq<Name>, root: SubtreeRoot)
    requires Acyclic(s, rank) && forall i :: 0 <= i < |names| ==> rank(names[i]) < rank(parent)
    requires ClosedSum(s, rank, parent, names, root).Some? && ClosedSum(s, rank, parent, names, root).value < TWO_31
    ensures Sum32(s, rank, parent, names, root) == Some(ClosedSum(s, rank, parent, names, root).value)
    decreases rank(parent), 0, |names|
  {
    hide Closed, Scale32, Wrap32, Acyclic;
    if names != [] {
      SumFitsIsExact(s, rank, parent, names[..|names| - 1], root);
      FitsIsExact(s, rank, names[|names| - 1], root);
      WrapFits(ClosedSum(s, rank, parent, names, root).value);
    }
  }

  lemma {:induction false} Scale32InRange(s: Structure, rank: Name -> nat, name: Name, root: SubtreeRoot)
    requires Acyclic(s, rank) && Scale32(s, rank, name, root).Some?
    ensures -TWO_31 <= Scale32(s, rank, name, root).value < TWO_31
    decreases rank(name), 1, 0
  {
    SumInRange(s, rank, name, ChildrenOf(s, name), root);
  }

  lemma SumInRange(s: Structure, rank: Name -> nat, parent: Name, names: seq<Name>, root: SubtreeRoot)
    requires Acyclic(s, rank) && forall i :: 0 <= i < |names| ==> rank(names[i]) < rank(parent)
    requires Sum32(s, rank, parent, names, root).Some?
    ensures -TWO_31 <= Sum32(s, rank, parent, names, root).value < TWO_31
  {
  }

  /** The 32-bit result is the closed form exactly when the closed form fits. */
  lemma ExactIffFits(s: Structure, rank: Name -> nat, name: Name, root: SubtreeRoot)
    requires Acyclic(s, rank) && Closed(s, rank, name, root).Some?
    ensures Scale32(s, rank, name, root) == Some(Closed(s, rank, name, root).value) <==> Closed(s, rank, name, root).value < TWO_31
  {
    SameFailures(s, rank, name, root);
    Scale32InRange(s, rank, name, root);
    if Closed(s, rank, name, root).value < TWO_31 {
      FitsIsExact(s, rank, name, root);
    }
  }

  // ---------------------------------------------------------------- monotonicity

  /** `t` is `s` with some replica counts raised. */
  predicate Raised(s: Structure, t: Structure) {
    && t.children == s.children && t.components.Keys == s.components.Keys
    && forall n | n in s.components ::
         && t.components[n].failed == s.components[n].failed && t.components[n].scales.Keys == s.components[n].scales.Keys
         && forall id | id in s.components[n].scales :: Effective(s.components[n].scales[id]) <= Effective(t.components[n].scales[id])
  }

  lemma CombineGrows(own: nat, kids: nat, own': nat, kids': nat)
    requires own <= own' && kids <= kids'
    ensures Combine(own, kids) <= Combine(own', kids')
  {
    var a, b, a', b' := Larger(1, own), Larger(1, kids), Larger(1, own'), Larger(1, kids');
    assert a * b <= a' * b by { MultiplyGrows(a, a', b); }
    assert a' * b <= a' * b' by { MultiplyGrows(b, b', a'); }
  }

  lemma MultiplyGrows(x: nat, y: nat, k: nat)
    requires x <= y
    ensures x * k <= y * k && k * x <= k * y
  {
    assert y * k == x * k + (y - x) * k;
  }

  lemma OwnGrows(s: Structure, t: Structure, name: Name, root: SubtreeRoot)
    requires Raised(s, t)
    ensures Own(s, name, root).None? <==> Own(t, name, root).None?
    ensures Own(s, name, root).Some? ==> Own(s, name, root).value <= Own(t, name, root).value
  {
    if name in s.components {
      SumGrows(EffectiveAll(s.components[name].scales), EffectiveAll(t.components[name].scales));
    }
  }

  /** The scale is monotone in every effective replica count. */
  lemma {:induction false} ScaleGrows(s: Structure, t: Structure, rank: Name -> nat, name: Name, root: SubtreeRoot)
    requires Acyclic(s, rank) && Acyclic(t, rank) && Raised(s, t)
    ensures Closed(s, rank, name, root).None? <==> Closed(t, rank, name, root).None?
    ensures Closed(s, rank, name, root).Some? ==> Closed(s, rank, name, root).value <= Closed(t, rank, name, root).value
    decreases rank(name), 1, 0
  {
    OwnGrows(s, t, name, root);
    var kids, kids' := ClosedSum(s, rank, name, ChildrenOf(s, name), root), ClosedSum(t, rank, name, ChildrenOf(s, name), root);
    SumsGrow(s, t, rank, name, ChildrenOf(s, name), root);
    if Closed(s, rank, name, root).Some? {
      CombineGrows(Own(s, name, root).value, kids.value, Own(t, name, root).value, kids'.value);
    }
    hide Combine, Own;
  }

  lemma {:induction false} SumsGrow(s: Structure, t: Structure, rank: Name -> nat, parent: Name, names: seq<Name>, root: SubtreeRoot)
    requires Acyclic(s, rank) && Acyclic(t, rank) && Raised(s, t) && forall i :: 0 <= i < |names| ==> rank(names[i]) < rank(parent)
    ensures ClosedSum(s, rank, parent, names, root).None? <==> ClosedSum(t, rank, parent, names, root).None?
    ensures ClosedSum(s, rank, parent, names, root).Some? ==>
              ClosedSum(s, rank, parent, names, root).value <= ClosedSum(t, rank, parent, names, root).value
    decreases rank(parent), 0, |names|
  {
    hide Raised;
    if names != [] {
      SumsGrow(s, t, rank, parent, names[..|names| - 1], root);
      ScaleGrows(s, t, rank, names[|names| - 1], root);
    }
  }

  // ---------------------------------------------------------------- the program

  /** calculateSubtreeScaleByDefinition. */
  method SubtreeScale(s: Structure, ghost rank: Name -> nat, name: Name, root: SubtreeRoot) returns (scale: Option<int>)
    requires Acyclic(s, rank)
    ensures scale == Scale32(s, rank, name, root)
    ensures Closed(s, rank, name, root).Some? && Closed(s, rank, name, root).value < TWO_31 ==> scale == Some(Closed(s, rank, name, root).value)
    decreases rank(name), 1
  {
    ExactWhenFits(s, rank, name, root);
    hide Closed, Own, Sum32;
    var own := OwnScale(s, name, root);
    if own.None? {
      return None;
    }
    var children := ChildrenOf(s, name);
    var kids := ChildrenScale(s, rank, name, children, root);
    if kids.None? {
      return None;
    }
    if children == [] || kids.value == 0 {
      return own;
    }
    if own.value == 0 {
      return kids;
    }
    return Some(Wrap32(own.value * kids.value));
  }

  lemma ExactWhenFits(s: Structure, rank: Name -> nat, name: Name, root: SubtreeRoot)
    requires Acyclic(s, rank)
    ensures Closed(s, rank, name, root).Some? && Closed(s, rank, name, root).value < TWO_31 ==>
              Scale32(s, rank, name, root) == Some(Closed(s, rank, name, root).value)
  {
    if Closed(s, rank, name, root).Some? && Closed(s, rank, name, root).value < TWO_31 {
      FitsIsExact(s, rank, name, root);
    }
  }

  /** The requested instance's scale, or the sum over all of the component's instances. */
  method OwnScale(s: Structure, name: Name, root: SubtreeRoot) returns (scale: Option<int>)
    ensures scale == if Own(s, name, root).None? then None else Some(Wrap32(Own(s, name, root).value))
  {
    if name !in s.components || s.components[name].failed {
      return None;
    }
    var scales := s.components[name].scales;
    if root.component == name && root.instance.Some? {
      if root.instance.value !in scales {
        return None;
      }
      return Some(Wrap32(Effective(scales[root.instance.value])));
    }
    var total := SumEffective(scales);
    return Some(total);
  }

  method ChildrenScale(s: Structure, ghost rank: Name -> nat, parent: Name, children: seq<Name>, root: SubtreeRoot) returns (scale: Option<int>)
    requires Acyclic(s, rank) && forall i :: 0 <= i < |children| ==> rank(children[i]) < rank(parent)
    ensures scale == Sum32(s, rank, parent, children, root)
    decreases rank(parent), 0
  {
    hide Scale32, Closed, Acyclic;
    var kids := 0;
    for i := 0 to |children|
      invariant Sum32(s, rank, parent, children[..i], root) == Some(kids)
    {
      assert children[..i + 1][..i] == children[..i];
      var child := SubtreeScale(s, rank, children[i], root);
      if child.None? {
        FailsAll(s, rank, parent, children, i, root);
        return None;
      }
      kids := Wrap32(kids + child.value);
    }
    assert children[..|children|] == children;
    return Some(kids);
  }

  /** One failing child fails the sum. */
  lemma {:induction false} FailsAll(s: Structure, rank: Name -> nat, parent: Name, names: seq<Name>, i: nat, root: SubtreeRoot)
    requires Acyclic(s, rank) && forall k :: 0 <= k < |names| ==> rank(names[k]) < rank(parent)
    requires i < |names| && Scale32(s, rank, names[i], root).None?
    ensures Sum32(s, rank, parent, names, root).None?
    decreases |names|
  {
    if i < |names| - 1 {
      FailsAll(s, rank, parent, names[..|names| - 1], i, root);
    }
  }

  /** The sum over a map's instances, in 32 bits and in any order. */
  method SumEffective(scales: map<Name, Scale>) returns (total: int)
    ensures total == Wrap32(Sum(EffectiveAll(scales)))
  {
    total := 0;
    var left := scales.Keys;
    ghost var all := EffectiveAll(scales);
    ghost var seen: nat := 0;
    assert all - (all.Keys - left) == all;
    while left != {}
      invariant left <= scales.Keys && total == Wrap32(seen)
      invariant Sum(all) == seen + Sum(all - (all.Keys - left))
    {
      var id :| id in left;
      ghost var rest := all - (all.Keys - left);
      SumWithout(rest, id);
      assert rest - {id} == all - (all.Keys - (left - {id}));
      WrapAdd(seen, Effective(scales[id]));
      total := Wrap32(total + Effective(scales[id]));
      seen := seen + Effective(scales[id]);
      left := left - {id};
    }
    assert all - (all.Keys - left) == map[];
  }
}
