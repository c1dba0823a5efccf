/**
 * The warehouse sorting simulation. Robots cycle Idle -> Seeking -> Carrying -> Idle:
 * an idle robot targets the nearest item nobody carries, a seeking robot that reaches
 * its target picks up an uncarried item lying exactly there, and a carrying robot that
 * reaches the stack for its item's type puts the item on it unless the stack is full.
 *
 * Steering (forces, clamping, heading) is not modelled: each tick an oracle `Step`
 * gives a robot's new position and whether it reached its target.
 */
module Warehouse {
  import opened Wrappers
  import opened Ontology

  /** Items created per type at start-up. */
  const ItemsPerType: nat := 5
  /** A stack is full from this many items on. */
  const StackCapacity: nat := 5
  /** Items created at start-up in all (five for each of the four types). */
  const ItemCount: nat := 20
  /** Distance of the stacks from the walls. */
  const StackMargin: int := 70

  /** An integer grid position, as items and stacks have. */
  datatype Pos = Pos(x: int, y: int)
  /** A robot's position, a pair of floats in the source. */
  datatype Point = Point(x: real, y: real)

  datatype Item = Item(itemType: ItemType, id: int, position: Pos)

  datatype Stack = Stack(position: Pos, items: seq<Item>, itemType: ItemType)

  /** `Stacking` is declared by the source but never entered. */
  datatype RobotState = Idle | Seeking | Carrying | Stacking

  datatype Robot = Robot(id: int, position: Point, state: RobotState, carriedItem: Option<Item>, target: Option<Pos>)

  /** What one call of the steering code yields for a robot: its new position and whether it reached its target. */
  datatype Step = Step(position: Point, arrived: bool)

  /** The part of the warehouse that `update` reads and writes. */
  datatype World = World(items: seq<Item>, stacks: map<ItemType, Stack>, robots: seq<Robot>)

  /** `Stack.is_full`. */
  predicate IsFull(s: Stack)
    ensures !IsFull(s) <==> |s.items| + 1 <= StackCapacity
  {
    |s.items| >= StackCapacity
  }

  /**
   * `Robot.move` reduced to its bookkeeping: without a target the robot does not move
   * and has not arrived; with one it takes the oracle's position and arrival verdict.
   */
  function Move(r: Robot, s: Step): (res: (Robot, bool))
    ensures res.1 ==> r.target.Some?
    ensures r.target.None? ==> res.0 == r
    ensures res.0 == r.(position := res.0.position)
  {
    if r.target.None? then (r, false) else (r.(position := s.position), s.arrived)
  }

  /** Some robot holds `x`. */
  predicate IsCarried(robots: seq<Robot>, x: Item)
  {
    exists i :: 0 <= i < |robots| && robots[i].carriedItem == Some(x)
  }

  /** The items nobody carries, in list order. */
  function Available(items: seq<Item>, robots: seq<Robot>): (avail: seq<Item>)
    ensures forall x :: x in avail <==> x in items && !IsCarried(robots, x)
  {
    if items == [] then []
    else (if IsCarried(robots, items[0]) then [] else [items[0]]) + Available(items[1..], robots)
  }

  /** The items nobody carries that lie exactly at `p`, in list order. */
  function Claimable(items: seq<Item>, robots: seq<Robot>, p: Pos): (found: seq<Item>)
    ensures forall x :: x in found <==> x in items && x.position == p && !IsCarried(robots, x)
  {
    if items == [] then []
    else
      (if items[0].position == p && !IsCarried(robots, items[0]) then [items[0]] else [])
      + Claimable(items[1..], robots, p)
  }

  /** The first claimable item is the earliest item of the list that qualifies. */
  lemma {:induction false} ClaimableHeadIsFirst(items: seq<Item>, robots: seq<Robot>, p: Pos)
    requires Claimable(items, robots, p) != []
    ensures exists k :: 0 <= k < |items| && items[k] == Claimable(items, robots, p)[0] &&
              forall j :: 0 <= j < k ==> items[j].position != p || IsCarried(robots, items[j])
  {
    if items[0].position == p && !IsCarried(robots, items[0]) {
      assert items[0] == Claimable(items, robots, p)[0];
    } else {
      ClaimableHeadIsFirst(items[1..], robots, p);
      var k :| 0 <= k < |items[1..]| && items[1..][k] == Claimable(items[1..], robots, p)[0]
        && forall j :: 0 <= j < k ==> items[1..][j].position != p || IsCarried(robots, items[1..][j]);
      assert items[k + 1] == Claimable(items, robots, p)[0];
      forall j | 0 <= j < k + 1
        ensures items[j].position != p || IsCarried(robots, items[j])
      {
        if j > 0 { assert items[j] == items[1..][j - 1]; }
      }
    }
  }

  /** Squared Euclidean distance; it orders points as the distance itself does. */
  function SqDist(p: Pos, q: Point): real
  {
    (p.x as real - q.x) * (p.x as real - q.x) + (p.y as real - q.y) * (p.y as real - q.y)
  }

  /** The keys Python's `min` compares: the distance from `from` to each item. */
  function Distances(items: seq<Item>, from: Point): (d: seq<real>)
    ensures |d| == |items|
  {
    if items == [] then [] else [SqDist(items[0].position, from)] + Distances(items[1..], from)
  }

  lemma {:induction false} DistancesAt(items: seq<Item>, from: Point, j: nat)
    requires j < |items|
    ensures Distances(items, from)[j] == SqDist(items[j].position, from)
  {
    if j > 0 {
      DistancesAt(items[1..], from, j - 1);
    }
  }

  /** Python's `min` over keys: the index of the first smallest key. */
  function ArgMinFirst(keys: seq<real>): (k: nat)
    requires keys != []
    ensures k < |keys|
    ensures forall j :: 0 <= j < |keys| ==> keys[k] <= keys[j]
    ensures forall j :: 0 <= j < k ==> keys[j] > keys[k]
  {
    if |keys| == 1 then 0
    else
      var k := ArgMinFirst(keys[..|keys| - 1]);
      var last := |keys| - 1;
      if keys[last] < keys[k] then last else k
  }

  /** `min(available_items, key=distance)`: the index of the first item nearest to `from`. */
  function Nearest(items: seq<Item>, from: Point): (k: nat)
    requires items != []
    ensures k < |items|
  {
    ArgMinFirst(Distances(items, from))
  }

  /** The chosen item is nearest, and no earlier item is as near. */
  lemma NearestIsFirstClosest(items: seq<Item>, from: Point)
    requires items != []
    ensures var k := Nearest(items, from);
      && (forall j :: 0 <= j < |items| ==> SqDist(items[k].position, from) <= SqDist(items[j].position, from))
      && (forall j :: 0 <= j < k ==> SqDist(items[j].position, from) > SqDist(items[k].position, from))
  {
    var d := Distances(items, from);
    var k := Nearest(items, from);
    forall j | 0 <= j < |items|
      ensures d[j] == SqDist(items[j].position, from)
    {
      DistancesAt(items, from, j);
    }
  }

  /** The number of items of type `t`. */
  function CountOf(items: seq<Item>, t: ItemType): (n: nat)
    ensures n <= |items|
  {
    if items == [] then 0 else (if items[0].itemType == t then 1 else 0) + CountOf(items[1..], t)
  }

  /** The position of the first occurrence of `x`. */
  function FirstIndex(items: seq<Item>, x: Item): (k: nat)
    requires x in items
    ensures k < |items| && items[k] == x && x !in items[..k]
  {
    if items[0] == x then 0
    else
      var k := 1 + FirstIndex(items[1..], x);
      assert items[..k] == [items[0]] + items[1..][..k - 1];
      k
  }

  /**
   * Python's `list.remove`: drops the first occurrence of `x` and keeps the other items
   * in order. Where Python raises `ValueError` for an absent `x`, the list stays as it
   * is; `Inv` rules that case out.
   */
  function Remove(items: seq<Item>, x: Item): (r: seq<Item>)
    ensures x in items ==> multiset(r) == multiset(items) - multiset{x} && |r| == |items| - 1
    ensures x !in items ==> r == items
  {
    if items == [] then []
    else
      assert items == [items[0]] + items[1..];
      if items[0] == x then items[1..] else [items[0]] + Remove(items[1..], x)
  }

  /** `list.remove` takes out the first occurrence of `x` and keeps the other items in order. */
  lemma RemoveDropsFirst(items: seq<Item>, x: Item)
    requires x in items
    ensures var k := FirstIndex(items, x); Remove(items, x) == items[..k] + items[k + 1..]
  {
    RemoveAt(items, x, FirstIndex(items, x));
  }

  /** Removing `x` where it first occurs at `k` splices out position `k`. */
  lemma {:induction false} RemoveAt(items: seq<Item>, x: Item, k: nat)
    requires k < |items| && items[k] == x && x !in items[..k]
    ensures Remove(items, x) == items[..k] + items[k + 1..]
  {
    assert items == [items[0]] + items[1..];
    if k == 0 {
      assert items[..0] + items[1..] == items[1..];
    } else {
      var tail := items[1..];
      assert items[0] in items[..k];
      assert tail[..k - 1] == items[1..k];
      assert x !in tail[..k - 1] by {
        assert forall y :: y in items[1..k] ==> y in items[..k];
      }
      RemoveAt(tail, x, k - 1);
      assert Remove(items, x) == [items[0]] + Remove(tail, x);
      assert items[..k] == [items[0]] + tail[..k - 1];
      assert items[k + 1..] == tail[k..];
    }
  }

  lemma {:induction false} CountOfRemove(items: seq<Item>, x: Item, t: ItemType)
    requires x in items
    ensures CountOf(Remove(items, x), t) == CountOf(items, t) - (if x.itemType == t then 1 else 0)
  {
    if items[0] == x {
      assert Remove(items, x) == items[1..];
    } else {
      var rest := Remove(items[1..], x);
      assert Remove(items, x) == [items[0]] + rest;
      assert ([items[0]] + rest)[1..] == rest;
      CountOfRemove(items[1..], x, t);
    }
  }

  lemma {:induction false} CountOfMember(items: seq<Item>, x: Item)
    requires x in items
    ensures CountOf(items, x.itemType) >= 1
  {
    if items[0] != x {
      CountOfMember(items[1..], x);
    }
  }

  lemma {:induction false} CountOfConcat(a: seq<Item>, b: seq<Item>, t: ItemType)
    ensures CountOf(a + b, t) == CountOf(a, t) + CountOf(b, t)
  {
    if a == [] {
      assert a + b == b;
    } else {
      CountOfConcat(a[1..], b, t);
      assert (a + b)[0] == a[0];
      assert (a + b)[1..] == a[1..] + b;
    }
  }

  /** The four per-type counts add up to the length of the list. */
  lemma {:induction false} CountsCoverItems(items: seq<Item>)
    ensures CountOf(items, Electronics) + CountOf(items, Clothing) + CountOf(items, Food) + CountOf(items, Tools) == |items|
  {
    if items != [] {
      CountsCoverItems(items[1..]);
    }
  }

  /** Every type has its stack, which holds only items of that type. */
  ghost predicate StacksWellFormed(stacks: map<ItemType, Stack>)
  {
    forall t: ItemType :: t in stacks && stacks[t].itemType == t && (forall x :: x in stacks[t].items ==> x.itemType == t)
  }

  /** For every type, the loose items of that type and the stacked ones make up the five created. */
  ghost predicate Conserved(w: World)
  {
    forall t: ItemType :: t in w.stacks ==> CountOf(w.items, t) + |w.stacks[t].items| == ItemsPerType
  }

  /**
   * Carried items are loose items, no item has two carriers, and a carrying robot
   * holds an item.
   */
  ghost predicate CarriersConsistent(items: seq<Item>, robots: seq<Robot>)
  {
    && (forall i :: 0 <= i < |robots| && robots[i].carriedItem.Some? ==> robots[i].carriedItem.value in items)
    && (forall i, j :: 0 <= i < |robots| && 0 <= j < |robots| && i != j && robots[i].carriedItem.Some?
          ==> robots[j].carriedItem != robots[i].carriedItem)
    && (forall i :: 0 <= i < |robots| && robots[i].state == Carrying ==> robots[i].carriedItem.Some?)
  }

  /** The warehouse invariant that `update` preserves. */
  ghost predicate Inv(w: World)
  {
    StacksWellFormed(w.stacks) && Conserved(w) && CarriersConsistent(w.items, w.robots)
  }

  /** `Warehouse.is_task_completed`: no loose item and nothing carried. */
  predicate IsTaskCompleted(w: World)
    ensures IsTaskCompleted(w) <==> w.items == [] && forall x :: !IsCarried(w.robots, x)
  {
    NothingCarried(w.robots);
    |w.items| == 0 && forall i :: 0 <= i < |w.robots| ==> w.robots[i].carriedItem.None?
  }

  /** No robot holds anything exactly when no item is carried. */
  lemma NothingCarried(robots: seq<Robot>)
    ensures (forall i :: 0 <= i < |robots| ==> robots[i].carriedItem.None?) <==> forall x :: !IsCarried(robots, x)
  {
    if exists i :: 0 <= i < |robots| && robots[i].carriedItem.Some? {
      var i :| 0 <= i < |robots| && robots[i].carriedItem.Some?;
      assert IsCarried(robots, robots[i].carriedItem.value);
    }
  }

  /**
   * What a tick needs to run without a lookup error: every type has a stack and a
   * carrying robot holds an item.
   */
  ghost predicate Shaped(w: World)
  {
    && (forall t: ItemType :: t in w.stacks)
    && (forall i :: 0 <= i < |w.robots| && w.robots[i].state == Carrying ==> w.robots[i].carriedItem.Some?)
  }

  /** One iteration of the robot loop of `update`, for robot `i`. */
  ghost function RobotTick(w: World, i: nat, s: Step): (w': World)
    requires Shaped(w) && i < |w.robots|
    ensures Shaped(w') && |w'.robots| == |w.robots|
  {
    var r := w.robots[i];
    match r.state
    case Idle =>
      var avail := Available(w.items, w.robots);
      if avail != [] then
        var target := avail[Nearest(avail, r.position)];
        w.(robots := w.robots[i := r.(target := Some(target.position), state := Seeking)])
      else w
    case Seeking =>
      var m := Move(r, s);
      var moved := m.0;
      if m.1 then
        var found := Claimable(w.items, w.robots, moved.target.value);
        if found != [] then
          var x := found[0];
          w.(robots := w.robots[i := moved.(carriedItem := Some(x), state := Carrying,
                                            target := Some(w.stacks[x.itemType].position))])
        else
          w.(robots := w.robots[i := moved.(state := Idle, target := None)])
      else
        w.(robots := w.robots[i := moved])
    case Carrying =>
      var m := Move(r, s);
      var moved := m.0;
      if m.1 then
        var x := moved.carriedItem.value;
        var stack := w.stacks[x.itemType];
        if !IsFull(stack) then
          World(Remove(w.items, x), w.stacks[x.itemType := stack.(items := stack.items + [x])],
                w.robots[i := moved.(carriedItem := None, target := None, state := Idle)])
        else
          w.(robots := w.robots[i := moved.(state := Idle, target := None)])
      else
        w.(robots := w.robots[i := moved])
    case Stacking => w
  }

  /** The rest of the robot loop of `update`: robots `from` .. end tick in list order. */
  ghost function Ticks(w: World, steps: seq<Step>, from: nat): (w': World)
    requires Shaped(w) && |steps| == |w.robots| && from <= |steps|
    ensures Shaped(w') && |w'.robots| == |w.robots|
    decreases |steps| - from
  {
    if from == |steps| then w
    else Ticks(RobotTick(w, from, steps[from]), steps, from + 1)
  }

  /** A whole `update` pass keeps the warehouse invariant. */
  lemma {:induction false} TicksPreserveInv(w: World, steps: seq<Step>, from: nat)
    requires Inv(w) && |steps| == |w.robots| && from <= |steps|
    ensures Inv(Ticks(w, steps, from))
    decreases |steps| - from
  {
    if from < |steps| {
      RobotTickPreservesInv(w, from, steps[from]);
      TicksPreserveInv(RobotTick(w, from, steps[from]), steps, from + 1);
    }
  }

  /** Each robot's tick keeps stacks within capacity, items conserved and carriers unique. */
  lemma RobotTickPreservesInv(w: World, i: nat, s: Step)
    requires Inv(w) && i < |w.robots|
    ensures Inv(RobotTick(w, i, s))
  {
    var r := w.robots[i];
    var w' := RobotTick(w, i, s);
    match r.state
    case Idle =>
      assert forall j :: 0 <= j < |w.robots| ==> w'.robots[j].carriedItem == w.robots[j].carriedItem;
    case Seeking =>
      var m := Move(r, s);
      if m.1 {
        var found := Claimable(w.items, w.robots, m.0.target.value);
        if found != [] {
          var x := found[0];
          assert x in found;
          assert !IsCarried(w.robots, x);
          assert forall j :: 0 <= j < |w.robots| && j != i ==> w'.robots[j].carriedItem == w.robots[j].carriedItem;
          assert w'.robots[i].carriedItem == Some(x);
        } else {
          assert forall j :: 0 <= j < |w.robots| ==> w'.robots[j].carriedItem == w.robots[j].carriedItem;
        }
      } else {
        assert forall j :: 0 <= j < |w.robots| ==> w'.robots[j].carriedItem == w.robots[j].carriedItem;
      }
    case Carrying =>
      var m := Move(r, s);
      if m.1 {
        var x := r.carriedItem.value;
        var stack := w.stacks[x.itemType];
        if !IsFull(stack) {
          DepositPreservesInv(w, i, m.0);
        } else {
          assert forall j :: 0 <= j < |w.robots| ==> w'.robots[j].carriedItem == w.robots[j].carriedItem;
        }
      } else {
        assert forall j :: 0 <= j < |w.robots| ==> w'.robots[j].carriedItem == w.robots[j].carriedItem;
      }
    case Stacking =>
  }

  /** The deposit branch of a carrying robot keeps the invariant. */
  lemma DepositPreservesInv(w: World, i: nat, moved: Robot)
    requires Inv(w) && i < |w.robots| && w.robots[i].state == Carrying
    requires moved == w.robots[i].(position := moved.position)
    ensures var x := moved.carriedItem.value;
            var stack := w.stacks[x.itemType];
            Inv(World(Remove(w.items, x), w.stacks[x.itemType := stack.(items := stack.items + [x])],
                      w.robots[i := moved.(carriedItem := None, target := None, state := Idle)]))
  {
    var x := moved.carriedItem.value;
    DepositKeepsStacks(w, x);
    DepositKeepsCarriers(w.items, w.robots, i, x, moved.(carriedItem := None, target := None, state := Idle));
  }

  /** Moving a loose item onto its stack keeps stacks to their own type and five items per type. */
  lemma DepositKeepsStacks(w: World, x: Item)
    requires StacksWellFormed(w.stacks) && Conserved(w) && x in w.items
    ensures var stack := w.stacks[x.itemType];
      var w' := w.(items := Remove(w.items, x), stacks := w.stacks[x.itemType := stack.(items := stack.items + [x])]);
      StacksWellFormed(w'.stacks) && Conserved(w')
  {
    var stack := w.stacks[x.itemType];
    var items' := Remove(w.items, x);
    var stacks' := w.stacks[x.itemType := stack.(items := stack.items + [x])];
    forall t: ItemType
      ensures t in stacks' && CountOf(items', t) + |stacks'[t].items| == ItemsPerType
    {
      CountOfRemove(w.items, x, t);
    }
  }

  /** A carrier that puts its item down and goes idle leaves the other carriers consistent. */
  lemma DepositKeepsCarriers(items: seq<Item>, robots: seq<Robot>, i: nat, x: Item, r: Robot)
    requires CarriersConsistent(items, robots) && i < |robots| && robots[i].carriedItem == Some(x)
    requires r.carriedItem.None? && r.state == Idle
    ensures CarriersConsistent(Remove(items, x), robots[i := r])
  {
    var items' := Remove(items, x);
    var robots' := robots[i := r];
    forall j | 0 <= j < |robots'| && robots'[j].carriedItem.Some?
      ensures robots'[j].carriedItem.value in items'
    {
      var y := robots'[j].carriedItem.value;
      assert j != i && robots[j].carriedItem == Some(y);
      RemoveKeepsOthers(items, x, y);
    }
  }

  /** Removing `x` keeps every other item in the list. */
  lemma {:induction false} RemoveKeepsOthers(items: seq<Item>, x: Item, y: Item)
    requires y in items && y != x
    ensures y in Remove(items, x)
  {
    if items[0] != x && items[0] != y {
      RemoveKeepsOthers(items[1..], x, y);
    }
  }

  /** A stack is never over capacity. */
  lemma StacksWithinCapacity(w: World, t: ItemType)
    requires Inv(w)
    ensures |w.stacks[t].items| <= StackCapacity
  {
  }

  /** Loose and stacked items always number twenty. */
  lemma TotalIsTwenty(w: World)
    requires Inv(w)
    ensures |w.items| + |w.stacks[Electronics].items| + |w.stacks[Clothing].items|
            + |w.stacks[Food].items| + |w.stacks[Tools].items| == ItemCount
  {
    CountsCoverItems(w.items);
  }

  /**
   * The stack for a carried item's type is never full: so the branch of `update`
   * that turns a robot away from a full stack is never taken.
   */
  lemma CarriedItemsStackHasRoom(w: World, i: nat)
    requires Inv(w) && 0 <= i < |w.robots| && w.robots[i].carriedItem.Some?
    ensures !IsFull(w.stacks[w.robots[i].carriedItem.value.itemType])
  {
    CountOfMember(w.items, w.robots[i].carriedItem.value);
  }

  /** A stack is full exactly when no item of its type is loose any more. */
  lemma FullIffNoneLeft(w: World, t: ItemType)
    requires Inv(w)
    ensures IsFull(w.stacks[t]) <==> CountOf(w.items, t) == 0
  {
  }

  /**
   * Completion needs only the loose items to be gone (carried items are loose),
   * and then all four stacks hold five items.
   */
  lemma TaskCompletedIffNoItems(w: World)
    requires Inv(w)
    ensures IsTaskCompleted(w) <==> w.items == []
    ensures IsTaskCompleted(w) ==> forall t: ItemType :: |w.stacks[t].items| == ItemsPerType
  {
  }

  /** The items standing on the four stacks. */
  function Stacked(stacks: map<ItemType, Stack>): multiset<Item>
    requires forall t: ItemType :: t in stacks
  {
    multiset(stacks[Electronics].items) + multiset(stacks[Clothing].items)
    + multiset(stacks[Food].items) + multiset(stacks[Tools].items)
  }

  /** Everything a world holds, loose or stacked. */
  function Contents(w: World): multiset<Item>
    requires forall t: ItemType :: t in w.stacks
  {
    multiset(w.items) + Stacked(w.stacks)
  }

  lemma StackedAfterPush(stacks: map<ItemType, Stack>, x: Item)
    requires forall t: ItemType :: t in stacks
    ensures var stack := stacks[x.itemType];
      Stacked(stacks[x.itemType := stack.(items := stack.items + [x])]) == Stacked(stacks) + multiset{x}
  {
    var stack := stacks[x.itemType];
    assert multiset(stack.items + [x]) == multiset(stack.items) + multiset{x};
    match x.itemType
    case Electronics =>
    case Clothing =>
    case Food =>
    case Tools =>
  }

  /** Putting a carried item on its stack moves it from the floor to the stack and loses nothing. */
  lemma DepositConservesContents(w: World, x: Item, robots': seq<Robot>)
    requires StacksWellFormed(w.stacks) && x in w.items
    ensures var stack := w.stacks[x.itemType];
      Contents(World(Remove(w.items, x), w.stacks[x.itemType := stack.(items := stack.items + [x])], robots'))
        == Contents(w)
  {
    StackedAfterPush(w.stacks, x);
    var rest := Remove(w.items, x);
    assert multiset(rest) + multiset{x} == multiset(w.items);
  }

  /** A robot's tick neither creates nor destroys items: at most it moves one from the floor to a stack. */
  lemma RobotTickConservesContents(w: World, i: nat, s: Step)
    requires Inv(w) && i < |w.robots|
    ensures Contents(RobotTick(w, i, s)) == Contents(w)
  {
    var r := w.robots[i];
    var w' := RobotTick(w, i, s);
    var m := Move(r, s);
    if r.state == Carrying && m.1 && !IsFull(w.stacks[r.carriedItem.value.itemType]) {
      var x := r.carriedItem.value;
      DepositConservesContents(w, x, w'.robots);
    } else {
      assert w'.items == w.items && w'.stacks == w.stacks;
    }
  }

  /** A whole `update` pass conserves the warehouse's contents. */
  lemma {:induction false} TicksConserveContents(w: World, steps: seq<Step>, from: nat)
    requires Inv(w) && |steps| == |w.robots| && from <= |steps|
    ensures Contents(Ticks(w, steps, from)) == Contents(w)
    decreases |steps| - from
  {
    if from < |steps| {
      RobotTickPreservesInv(w, from, steps[from]);
      RobotTickConservesContents(w, from, steps[from]);
      TicksConserveContents(RobotTick(w, from, steps[from]), steps, from + 1);
    }
  }

  /** An idle robot with an uncarried item left targets such an item's position and starts seeking; with none left nothing changes. */
  lemma IdleRobotTick(w: World, i: nat, s: Step)
    requires Shaped(w) && i < |w.robots| && w.robots[i].state == Idle
    ensures var w' := RobotTick(w, i, s);
      var r := w.robots[i];
      && w'.items == w.items && w'.stacks == w.stacks
      && (forall j :: 0 <= j < |w.robots| && j != i ==> w'.robots[j] == w.robots[j])
      && ((exists x :: x in w.items && !IsCarried(w.robots, x)) ==>
            exists x :: x in w.items && !IsCarried(w.robots, x)
              && w'.robots[i] == r.(target := Some(x.position), state := Seeking)
              && forall y :: y in w.items && !IsCarried(w.robots, y) ==>
                   SqDist(x.position, r.position) <= SqDist(y.position, r.position))
      && ((forall x :: x in w.items ==> IsCarried(w.robots, x)) ==> w' == w)
  {
    var r := w.robots[i];
    var avail := Available(w.items, w.robots);
    if exists x :: x in w.items && !IsCarried(w.robots, x) {
      var x :| x in w.items && !IsCarried(w.robots, x);
      assert x in avail;
      var k := Nearest(avail, r.position);
      NearestIsFirstClosest(avail, r.position);
      assert avail[k] in avail;
      forall y | y in w.items && !IsCarried(w.robots, y)
        ensures SqDist(avail[k].position, r.position) <= SqDist(y.position, r.position)
      {
        assert y in avail;
        var j :| 0 <= j < |avail| && avail[j] == y;
      }
    }
  }

  /**
   * The target an idle robot picks is `min(available, key=distance)`: the first of the
   * nearest available items, as `Nearest` computes it.
   */
  lemma IdleRobotTargetsNearest(w: World, i: nat, s: Step)
    requires Shaped(w) && i < |w.robots| && w.robots[i].state == Idle
    requires Available(w.items, w.robots) != []
    ensures var avail := Available(w.items, w.robots);
      var k := Nearest(avail, w.robots[i].position);
      RobotTick(w, i, s).robots[i] == w.robots[i].(target := Some(avail[k].position), state := Seeking)
  {
  }

  /**
   * A seeking robot that reaches its target picks up the first uncarried item lying
   * exactly there and heads for that type's stack; finding none it goes idle with no target.
   */
  lemma SeekingRobotArrives(w: World, i: nat, s: Step)
    requires Shaped(w) && i < |w.robots| && w.robots[i].state == Seeking
    requires w.robots[i].target.Some? && s.arrived
    ensures var w' := RobotTick(w, i, s);
      var p := w.robots[i].target.value;
      && w'.items == w.items && w'.stacks == w.stacks
      && (forall j :: 0 <= j < |w.robots| && j != i ==> w'.robots[j] == w.robots[j])
      && w'.robots[i].position == s.position
      && ((exists x :: x in w.items && x.position == p && !IsCarried(w.robots, x)) ==>
            && w'.robots[i].state == Carrying
            && w'.robots[i].carriedItem.Some?
            && var x := w'.robots[i].carriedItem.value;
            && x in w.items && x.position == p && !IsCarried(w.robots, x)
            && w'.robots[i].target == Some(w.stacks[x.itemType].position)
            && exists k :: 0 <= k < |w.items| && w.items[k] == x
                 && forall j :: 0 <= j < k ==> w.items[j].position != p || IsCarried(w.robots, w.items[j]))
      && ((forall x :: x in w.items && x.position == p ==> IsCarried(w.robots, x)) ==>
            w'.robots[i].state == Idle && w'.robots[i].target.None?)
  {
    var p := w.robots[i].target.value;
    var moved := w.robots[i].(position := s.position);
    assert Move(w.robots[i], s) == (moved, true);
    var found := Claimable(w.items, w.robots, p);
    if found != [] {
      var x := found[0];
      assert x in found;
      ClaimableHeadIsFirst(w.items, w.robots, p);
      assert RobotTick(w, i, s) == w.(robots := w.robots[i := moved.(carriedItem := Some(x), state := Carrying,
                                                                   target := Some(w.stacks[x.itemType].position))]);
    } else {
      assert RobotTick(w, i, s) == w.(robots := w.robots[i := moved.(state := Idle, target := None)]);
    }
    if exists x :: x in w.items && x.position == p && !IsCarried(w.robots, x) {
      var x :| x in w.items && x.position == p && !IsCarried(w.robots, x);
      assert x in found;
    }
  }

  /**
   * A carrying robot that reaches its stack puts the item on it when the stack has room,
   * taking it off the floor and going idle empty-handed; at a full stack it goes idle
   * with no target but keeps the item.
   */
  lemma CarryingRobotArrives(w: World, i: nat, s: Step)
    requires Shaped(w) && i < |w.robots| && w.robots[i].state == Carrying
    requires w.robots[i].target.Some? && s.arrived
    ensures var w' := RobotTick(w, i, s);
      var x := w.robots[i].carriedItem.value;
      var stack := w.stacks[x.itemType];
      && (forall j :: 0 <= j < |w.robots| && j != i ==> w'.robots[j] == w.robots[j])
      && w'.robots[i].state == Idle && w'.robots[i].target.None? && w'.robots[i].position == s.position
      && (!IsFull(stack) ==>
            && w'.stacks[x.itemType].items == stack.items + [x]
            && (forall t :: t != x.itemType ==> w'.stacks[t] == w.stacks[t])
            && w'.items == Remove(w.items, x)
            && multiset(w'.items) == multiset(w.items) - multiset{x}
            && w'.robots[i].carriedItem.None?)
      && (IsFull(stack) ==>
            w'.items == w.items && w'.stacks == w.stacks && w'.robots[i].carriedItem == Some(x))
  {
  }

  /** The first twenty items: ids 0..19 in creation order, five of each type in declaration order. */
  function InitialItems(positions: seq<Pos>): (items: seq<Item>)
    requires |positions| == ItemCount
    ensures |items| == ItemCount
    ensures forall k :: 0 <= k < ItemCount ==> items[k].id == k && items[k].position == positions[k]
  {
    seq(ItemCount, k requires 0 <= k < ItemCount => Item(AllTypes[k / ItemsPerType], k, positions[k]))
  }

  lemma {:induction false} CountOfUniform(items: seq<Item>, u: ItemType, t: ItemType)
    requires forall k :: 0 <= k < |items| ==> items[k].itemType == u
    ensures CountOf(items, t) == if u == t then |items| else 0
  {
    if items != [] {
      CountOfUniform(items[1..], u, t);
    }
  }

  /** Start-up creates exactly five items of each type. */
  lemma InitialItemsPerType(positions: seq<Pos>, t: ItemType)
    requires |positions| == ItemCount
    ensures CountOf(InitialItems(positions), t) == ItemsPerType
  {
    var items := InitialItems(positions);
    var b0, b1, b2, b3 := items[..5], items[5..10], items[10..15], items[15..];
    assert items == b0 + b1 + b2 + b3;
    CountOfConcat(b0 + b1 + b2, b3, t);
    CountOfConcat(b0 + b1, b2, t);
    CountOfConcat(b0, b1, t);
    CountOfUniform(b0, Electronics, t);
    CountOfUniform(b1, Clothing, t);
    CountOfUniform(b2, Food, t);
    CountOfUniform(b3, Tools, t);
  }

  /** The four stack positions, one per corner, in declaration order of the types. */
  function StackPositions(width: int, height: int): seq<Pos>
  {
    [Pos(StackMargin, StackMargin), Pos(width - StackMargin, StackMargin),
     Pos(StackMargin, height - StackMargin), Pos(width - StackMargin, height - StackMargin)]
  }

  /** One empty stack per type, at the corner for that type. */
  function InitialStacks(width: int, height: int): (stacks: map<ItemType, Stack>)
    ensures forall t: ItemType :: t in stacks
    ensures forall t: ItemType :: t in stacks ==> stacks[t] == Stack(StackPositions(width, height)[TypeIndex(t)], [], t)
  {
    AllTypesComplete();
    map t: ItemType | t in AllTypes :: Stack(StackPositions(width, height)[TypeIndex(t)], [], t)
  }

  /** The robots at start-up: idle, empty-handed, with no target, numbered in list order. */
  function InitialRobots(starts: seq<Pos>): (robots: seq<Robot>)
    ensures |robots| == |starts|
    ensures forall i :: 0 <= i < |starts| ==>
      robots[i] == Robot(i, Point(starts[i].x as real, starts[i].y as real), Idle, None, None)
  {
    seq(|starts|, i requires 0 <= i < |starts| => Robot(i, Point(starts[i].x as real, starts[i].y as real), Idle, None, None))
  }

  /** The warehouse as built satisfies the invariant. */
  lemma InitialWorldInv(width: int, height: int, starts: seq<Pos>, positions: seq<Pos>)
    requires |positions| == ItemCount
    ensures Inv(World(InitialItems(positions), InitialStacks(width, height), InitialRobots(starts)))
  {
    forall t: ItemType
      ensures CountOf(InitialItems(positions), t) == ItemsPerType
    {
      InitialItemsPerType(positions, t);
    }
  }

  /** The simulated warehouse; its fields are those `update` changes in place. */
  class Warehouse {
    const width: int
    const height: int
    var robots: seq<Robot>
    var items: seq<Item>
    var stacks: map<ItemType, Stack>
    var taskCompleted: bool

    function Model(): World
      reads this
    {
      World(items, stacks, robots)
    }

    ghost predicate Valid()
      reads this
    {
      Inv(Model())
    }

    /** Robots start at the given grid points; items lie at the given positions (both drawn at random by the source). */
    constructor (width: int, height: int, starts: seq<Pos>, itemPositions: seq<Pos>)
      requires |itemPositions| == ItemCount
      ensures Valid()
      ensures this.width == width && this.height == height
      ensures robots == InitialRobots(starts)
      ensures items == InitialItems(itemPositions)
      ensures stacks == InitialStacks(width, height)
      ensures !taskCompleted
    {
      this.width := width;
      this.height := height;
      robots := InitialRobots(starts);
      items := [];
      stacks := map[];
      taskCompleted := false;
      new;
      InitializeItems(itemPositions);
      InitializeStacks();
      assert items == InitialItems(itemPositions);
      assert stacks == InitialStacks(width, height);
      InitialWorldInv(width, height, starts, itemPositions);
    }

    /** `initialize_items`: appends five items per type, numbering them from 0. */
    method InitializeItems(positions: seq<Pos>)
      requires |positions| == ItemCount
      modifies this
      ensures items == old(items) + InitialItems(positions)
      ensures robots == old(robots) && stacks == old(stacks) && taskCompleted == old(taskCompleted)
    {
      var itemId := 0;
      for k := 0 to |AllTypes|
        invariant itemId == k * ItemsPerType
        invariant items == old(items) + InitialItems(positions)[..itemId]
        invariant robots == old(robots) && stacks == old(stacks) && taskCompleted == old(taskCompleted)
      {
        var itemType := AllTypes[k];
        for n := 0 to ItemsPerType
          invariant itemId == k * ItemsPerType + n
          invariant items == old(items) + InitialItems(positions)[..itemId]
          invariant robots == old(robots) && stacks == old(stacks) && taskCompleted == old(taskCompleted)
        {
          assert InitialItems(positions)[itemId] == Item(itemType, itemId, positions[itemId]);
          items := items + [Item(itemType, itemId, positions[itemId])];
          itemId := itemId + 1;
        }
      }
    }

    /** `initialize_stacks`: one empty stack per type, at the corner for that type. */
    method InitializeStacks()
      modifies this
      ensures stacks == old(stacks) + InitialStacks(width, height)
      ensures robots == old(robots) && items == old(items) && taskCompleted == old(taskCompleted)
    {
      var positions := StackPositions(width, height);
      for k := 0 to |AllTypes|
        invariant forall t: ItemType :: t in stacks <==> t in old(stacks) || TypeIndex(t) < k
        invariant forall t: ItemType :: t in stacks ==>
          stacks[t] == if TypeIndex(t) < k then Stack(positions[TypeIndex(t)], [], t) else old(stacks)[t]
        invariant robots == old(robots) && items == old(items) && taskCompleted == old(taskCompleted)
      {
        var itemType := AllTypes[k];
        stacks := stacks[itemType := Stack(positions[k], [], itemType)];
      }
      assert stacks == old(stacks) + InitialStacks(width, height);
    }

    /** The body of the robot loop of `update`, for robot `i`. */
    method TickRobot(i: nat, step: Step)
      requires Shaped(Model()) && i < |robots|
      modifies this
      ensures Model() == RobotTick(old(Model()), i, step)
      ensures taskCompleted == old(taskCompleted)
    {
      var robot := robots[i];
      if robot.state == Idle {
        var available := Available(items, robots);
        if available != [] {
          var targetItem := available[Nearest(available, robot.position)];
          robots := robots[i := robot.(target := Some(targetItem.position), state := Seeking)];
        }
      } else if robot.state == Seeking {
        var m := Move(robot, step);
        robot := m.0;
        if m.1 {
          var targetItems := Claimable(items, robots, robot.target.value);
          if targetItems != [] {
            var x := targetItems[0];
            robot := robot.(carriedItem := Some(x), state := Carrying, target := Some(stacks[x.itemType].position));
          } else {
            robot := robot.(state := Idle, target := None);
          }
        }
        robots := robots[i := robot];
      } else if robot.state == Carrying {
        var m := Move(robot, step);
        robot := m.0;
        robots := robots[i := robot];
        if m.1 {
          var x := robot.carriedItem.value;
          var stack := stacks[x.itemType];
          if !IsFull(stack) {
            stacks := stacks[x.itemType := stack.(items := stack.items + [x])];
            items := Remove(items, x);
            robots := robots[i := robot.(carriedItem := None, target := None, state := Idle)];
          } else {
            robots := robots[i := robot.(state := Idle, target := None)];
          }
        }
      }
    }

    /**
     * `Warehouse.update`: every robot in list order takes one tick, given the steering
     * oracle's step for it; then the completion flag is raised once all items are stacked.
     */
    method Update(steps: seq<Step>)
      requires Valid() && |steps| == |robots|
      modifies this
      ensures Valid()
      ensures Model() == Ticks(old(Model()), steps, 0)
      ensures taskCompleted == (old(taskCompleted) || IsTaskCompleted(Model()))
    {
      var i := 0;
      while i < |robots|
        invariant 0 <= i <= |steps| == |robots|
        invariant Valid()
        invariant Ticks(Model(), steps, i) == Ticks(old(Model()), steps, 0)
        invariant taskCompleted == old(taskCompleted)
      {
        ghost var before := Model();
        RobotTickPreservesInv(before, i, steps[i]);
        TickRobot(i, steps[i]);
        assert Ticks(before, steps, i) == Ticks(Model(), steps, i + 1);
        i := i + 1;
      }
      if !taskCompleted && IsTaskCompleted(Model()) {
        taskCompleted := true;
      }
    }
  }
}
