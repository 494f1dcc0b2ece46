/** Helper predicates on the player, the accessory and grappling-hook
    enumerations, and the in-place release of grappling hooks
    (Utilities/Extensions/PlayerExtensions.cs). */
module PlayerExtensions {
  import opened Host

  // Essentials

  predicate IsLocal(p: Player, myPlayer: int): (r: bool)
    reads p
    ensures r <==> p.whoAmI == myPlayer
  {
    p.whoAmI == myPlayer
  }

  predicate OnGround(p: Player): (r: bool)
    reads p
    ensures r <==> p.velocity.y == 0.0
  {
    p.velocity.y == 0.0
  }

  predicate WasOnGround(p: Player): (r: bool)
    reads p
    ensures r <==> p.oldVelocity.y == 0.0
  {
    p.oldVelocity.y == 0.0
  }

  /** -1 while left is held (right or not), 1 while only right is held, otherwise 0. */
  function KeyDirection(p: Player): (d: int)
    reads p
    ensures d == -1 <==> p.controlLeft
    ensures d == 1 <==> !p.controlLeft && p.controlRight
    ensures d == 0 <==> !p.controlLeft && !p.controlRight
  {
    if p.controlLeft then -1 else if p.controlRight then 1 else 0
  }

  // Inventory

  /** An enumerated accessory: the item and its armor slot. */
  datatype Accessory = Accessory(item: Item, index: int)

  /** One past the last accessory slot. */
  function AccessoryEnd(p: Player): int
    reads p
  {
    8 + p.extraAccessorySlots
  }

  /** Every slot the accessory loop reads exists (the host throws otherwise). */
  predicate AccessorySlotsExist(p: Player)
    reads p
  {
    AccessoryEnd(p) <= 3 || AccessoryEnd(p) <= |p.armor|
  }

  /** Slot `i` holds a non-null, active item. */
  predicate Equipped(armor: seq<Option<Item>>, i: int)
  {
    0 <= i < |armor| && armor[i].Some? && armor[i].value.active
  }

  /** The accessories in slots 3 <= i < n, in slot order. */
  function AccessoriesBelow(armor: seq<Option<Item>>, n: int): seq<Accessory>
    requires n <= 3 || n <= |armor|
    decreases n
  {
    if n <= 3 then []
    else AccessoriesBelow(armor, n - 1) + (if Equipped(armor, n - 1) then [Accessory(armor[n - 1].value, n - 1)] else [])
  }

  /** `a` is the item of an equipped slot 3 <= i < n, paired with that slot. */
  predicate IsAccessoryBelow(armor: seq<Option<Item>>, n: int, a: Accessory)
  {
    3 <= a.index < n && Equipped(armor, a.index) && a.item == armor[a.index].value
  }

  /** AccessoriesBelow holds exactly the equipped slots below `n`, each once, in ascending slot order. */
  lemma {:induction false} AccessoriesBelowSpec(armor: seq<Option<Item>>, n: int)
    requires n <= 3 || n <= |armor|
    ensures forall a :: a in AccessoriesBelow(armor, n) <==> IsAccessoryBelow(armor, n, a)
    ensures forall k, l :: 0 <= k < l < |AccessoriesBelow(armor, n)| ==>
      AccessoriesBelow(armor, n)[k].index < AccessoriesBelow(armor, n)[l].index
    decreases n
  {
    if n > 3 {
      AccessoriesBelowSpec(armor, n - 1);
      var before := AccessoriesBelow(armor, n - 1);
      var acc := AccessoriesBelow(armor, n);
      forall k, l | 0 <= k < l < |acc| ensures acc[k].index < acc[l].index {
        if l >= |before| {
          assert acc[k] == before[k] && before[k] in before;
        } else {
          assert acc[k] == before[k] && acc[l] == before[l];
        }
      }
    }
  }

  /** What EnumerateAccessories yields. */
  function Accessories(p: Player): seq<Accessory>
    reads p
    requires AccessorySlotsExist(p)
  {
    AccessoriesBelow(p.armor, AccessoryEnd(p))
  }

  /** Visits slots 3 <= i < 8 + extraAccessorySlots and keeps the non-null, active items. */
  method EnumerateAccessories(p: Player) returns (acc: seq<Accessory>)
    requires AccessorySlotsExist(p)
    ensures acc == Accessories(p)
    ensures forall a :: a in acc <==> IsAccessoryBelow(p.armor, AccessoryEnd(p), a)
    ensures forall k, l :: 0 <= k < l < |acc| ==> acc[k].index < acc[l].index
  {
    acc := [];
    var i := 3;
    while i < 8 + p.extraAccessorySlots
      invariant 3 <= i && (i <= AccessoryEnd(p) || i == 3)
      invariant acc == AccessoriesBelow(p.armor, i)
    {
      var item := p.armor[i];
      if item.Some? && item.value.active {
        acc := acc + [Accessory(item.value, i)];
      }
      i := i + 1;
    }
    AccessoriesBelowSpec(p.armor, AccessoryEnd(p));
  }

  /** Some accessory in the sequence has type `itemId`. */
  function AnyOfType(acc: seq<Accessory>, itemId: int): (r: bool)
    ensures r <==> exists a :: a in acc && a.item.itemType == itemId
  {
    if acc == [] then false
    else acc[0].item.itemType == itemId || AnyOfType(acc[1..], itemId)
  }

  /** Some accessory in the sequence has a type listed in `ids`. */
  function AnyListed(acc: seq<Accessory>, ids: seq<int>): (r: bool)
    ensures r <==> exists a :: a in acc && a.item.itemType in ids
  {
    if acc == [] then false
    else acc[0].item.itemType in ids || AnyListed(acc[1..], ids)
  }

  /** Every accessory in the sequence has a type listed in `ids`. */
  function AllListed(acc: seq<Accessory>, ids: seq<int>): (r: bool)
    ensures r <==> forall a :: a in acc ==> a.item.itemType in ids
  {
    if acc == [] then true
    else acc[0].item.itemType in ids && AllListed(acc[1..], ids)
  }

  /** HasAccessory(itemId): some equipped accessory slot holds that item type. */
  function HasAccessory(p: Player, itemId: int): (r: bool)
    reads p
    requires AccessorySlotsExist(p)
    ensures r <==> exists i :: 3 <= i < AccessoryEnd(p) && Equipped(p.armor, i) && p.armor[i].value.itemType == itemId
  {
    var acc := Accessories(p);
    AccessoriesBelowSpec(p.armor, AccessoryEnd(p));
    assert forall i :: 3 <= i < AccessoryEnd(p) && Equipped(p.armor, i) ==> Accessory(p.armor[i].value, i) in acc;
    AnyOfType(acc, itemId)
  }

  /** HasAccessory(any, itemIds): with `any`, some equipped accessory's type is
      listed; without it, every equipped accessory's type is listed (true when
      none is equipped). */
  function HasAccessories(p: Player, any: bool, itemIds: seq<int>): (r: bool)
    reads p
    requires AccessorySlotsExist(p)
    ensures any ==> (r <==> exists i :: 3 <= i < AccessoryEnd(p) && Equipped(p.armor, i) && p.armor[i].value.itemType in itemIds)
    ensures !any ==> (r <==> forall i :: 3 <= i < AccessoryEnd(p) && Equipped(p.armor, i) ==> p.armor[i].value.itemType in itemIds)
  {
    var acc := Accessories(p);
    AccessoriesBelowSpec(p.armor, AccessoryEnd(p));
    assert forall i :: 3 <= i < AccessoryEnd(p) && Equipped(p.armor, i) ==> Accessory(p.armor[i].value, i) in acc;
    if any then AnyListed(acc, itemIds) else AllListed(acc, itemIds)
  }

  // Grappling hooks

  /** An enumerated hook: the projectile and its slot in `grappling`. */
  datatype Hook = Hook(projectile: Projectile, hookIndex: int)

  /** The first slot at or after `i` holding a negative id, or |g| if none does. */
  function FirstNegative(g: seq<int>, i: nat): (n: nat)
    requires i <= |g|
    ensures i <= n <= |g|
    ensures forall k :: i <= k < n ==> g[k] >= 0
    ensures n < |g| ==> g[n] < 0
    decreases |g| - i
  {
    if i == |g| then i
    else if g[i] < 0 then i
    else FirstNegative(g, i + 1)
  }

  /** The ids before the first negative one are slots of the projectile table
      (the host throws otherwise). */
  predicate HookIdsValid(g: seq<int>, projectiles: seq<Option<Projectile>>)
  {
    forall k :: 0 <= k < FirstNegative(g, 0) ==> g[k] < |projectiles|
  }

  /** Slot `k` refers to a non-null, active projectile. */
  predicate LiveHookAt(g: seq<int>, projectiles: seq<Option<Projectile>>, k: int)
  {
    0 <= k < |g| && 0 <= g[k] < |projectiles| && projectiles[g[k]].Some? && projectiles[g[k]].value.active
  }

  /** The live hooks in slots below `n`, in slot order. */
  function HooksBelow(g: seq<int>, projectiles: seq<Option<Projectile>>, n: nat): seq<Hook>
    requires n <= FirstNegative(g, 0) && HookIdsValid(g, projectiles)
  {
    if n == 0 then []
    else
      var id := g[n - 1];
      HooksBelow(g, projectiles, n - 1) +
        (if projectiles[id].Some? && projectiles[id].value.active then [Hook(projectiles[id].value, n - 1)] else [])
  }

  /** `h` is the projectile of a live hook slot below `n`, paired with that slot. */
  predicate IsHookBelow(g: seq<int>, projectiles: seq<Option<Projectile>>, n: int, h: Hook)
  {
    0 <= h.hookIndex < n && LiveHookAt(g, projectiles, h.hookIndex) && h.projectile == projectiles[g[h.hookIndex]].value
  }

  /** HooksBelow holds exactly the live hook slots below `n`, each once, in ascending slot order. */
  lemma {:induction false} HooksBelowSpec(g: seq<int>, projectiles: seq<Option<Projectile>>, n: nat)
    requires n <= FirstNegative(g, 0) && HookIdsValid(g, projectiles)
    ensures forall h :: h in HooksBelow(g, projectiles, n) <==> IsHookBelow(g, projectiles, n, h)
    ensures forall k, l :: 0 <= k < l < |HooksBelow(g, projectiles, n)| ==>
      HooksBelow(g, projectiles, n)[k].hookIndex < HooksBelow(g, projectiles, n)[l].hookIndex
  {
    if n > 0 {
      HooksBelowSpec(g, projectiles, n - 1);
      var before := HooksBelow(g, projectiles, n - 1);
      var hooks := HooksBelow(g, projectiles, n);
      forall k, l | 0 <= k < l < |hooks| ensures hooks[k].hookIndex < hooks[l].hookIndex {
        if l >= |before| {
          assert hooks[k] == before[k] && before[k] in before;
        } else {
          assert hooks[k] == before[k] && hooks[l] == before[l];
        }
      }
    }
  }

  /** What EnumerateGrapplingHooks yields: the live hooks before the first negative id. */
  function GrapplingHooks(g: seq<int>, projectiles: seq<Option<Projectile>>): seq<Hook>
    requires HookIdsValid(g, projectiles)
  {
    HooksBelow(g, projectiles, FirstNegative(g, 0))
  }

  /** Visits grappling[0], grappling[1], ... in order, stops at the first
      negative id and yields the non-null, active projectiles with their slot. */
  method EnumerateGrapplingHooks(p: Player, projectiles: seq<Option<Projectile>>) returns (hooks: seq<Hook>)
    requires HookIdsValid(p.grappling[..], projectiles)
    ensures hooks == GrapplingHooks(p.grappling[..], projectiles)
    ensures forall h :: h in hooks <==> IsHookBelow(p.grappling[..], projectiles, FirstNegative(p.grappling[..], 0), h)
    ensures forall k, l :: 0 <= k < l < |hooks| ==> hooks[k].hookIndex < hooks[l].hookIndex
  {
    ghost var g := p.grappling[..];
    hooks := [];
    var i := 0;
    while i < p.grappling.Length
      invariant 0 <= i <= FirstNegative(g, 0)
      invariant hooks == HooksBelow(g, projectiles, i)
    {
      var id := p.grappling[i];
      if id < 0 {
        break;
      }
      var hook := projectiles[id];
      if hook.Some? && hook.value.active {
        hooks := hooks + [Hook(hook.value, i)];
      }
      i := i + 1;
    }
    HooksBelowSpec(g, projectiles, i);
  }

  /** A hook that StopGrappling releases: not `exceptFor`, and latched (ai[0] == 2). */
  predicate Releases(h: Hook, exceptFor: Option<Projectile>)
  {
    Some(h.projectile) != exceptFor && h.projectile.ai0 == 2.0
  }

  /** The hooks of the sequence that StopGrappling releases, in order. */
  function Released(hooks: seq<Hook>, exceptFor: Option<Projectile>): seq<Hook>
  {
    if hooks == [] then []
    else
      var last := hooks[|hooks| - 1];
      Released(hooks[..|hooks| - 1], exceptFor) + (if Releases(last, exceptFor) then [last] else [])
  }

  /** Slot `k` holds a hook that StopGrappling releases. */
  predicate ReleasedSlot(g: seq<int>, projectiles: seq<Option<Projectile>>, exceptFor: Option<Projectile>, k: int)
    requires HookIdsValid(g, projectiles)
  {
    0 <= k < FirstNegative(g, 0) && LiveHookAt(g, projectiles, k) &&
    Releases(Hook(projectiles[g[k]].value, k), exceptFor)
  }

  /** The released slots are exactly the slots of the released hooks. */
  lemma ReleasedSlotsAreReleasedHooks(g: seq<int>, projectiles: seq<Option<Projectile>>, exceptFor: Option<Projectile>, k: int)
    requires HookIdsValid(g, projectiles)
    ensures ReleasedSlot(g, projectiles, exceptFor, k) <==>
      exists h :: h in Released(GrapplingHooks(g, projectiles), exceptFor) && h.hookIndex == k
  {
    var hooks := GrapplingHooks(g, projectiles);
    HooksBelowSpec(g, projectiles, FirstNegative(g, 0));
    ReleasedIsFilter(hooks, exceptFor);
    if ReleasedSlot(g, projectiles, exceptFor, k) {
      assert Hook(projectiles[g[k]].value, k) in hooks;
    }
  }

  /** The slots after StopGrappling has visited the slots below `n`: those
      that release are -1, the rest keep their ids. */
  ghost function ReleasedBelow(g: seq<int>, projectiles: seq<Option<Projectile>>, exceptFor: Option<Projectile>, n: int): seq<int>
    requires HookIdsValid(g, projectiles)
  {
    seq(|g|, k requires 0 <= k < |g| => if k < n && ReleasedSlot(g, projectiles, exceptFor, k) then -1 else g[k])
  }

  /** Visiting slot `i` writes -1 there exactly when that slot releases. */
  lemma ReleasedBelowStep(g: seq<int>, projectiles: seq<Option<Projectile>>, exceptFor: Option<Projectile>, i: int)
    requires HookIdsValid(g, projectiles) && 0 <= i < FirstNegative(g, 0)
    ensures ReleasedSlot(g, projectiles, exceptFor, i) <==>
      projectiles[g[i]].Some? && projectiles[g[i]].value.active && Releases(Hook(projectiles[g[i]].value, i), exceptFor)
    ensures ReleasedSlot(g, projectiles, exceptFor, i) ==>
      ReleasedBelow(g, projectiles, exceptFor, i + 1) == ReleasedBelow(g, projectiles, exceptFor, i)[i := -1]
    ensures !ReleasedSlot(g, projectiles, exceptFor, i) ==>
      ReleasedBelow(g, projectiles, exceptFor, i + 1) == ReleasedBelow(g, projectiles, exceptFor, i)
  {
  }

  /** Visiting slot `i` adds its hook to the released ones exactly when that
      slot releases. */
  lemma ReleasedHooksStep(g: seq<int>, projectiles: seq<Option<Projectile>>, exceptFor: Option<Projectile>, i: int)
    requires HookIdsValid(g, projectiles) && 0 <= i < FirstNegative(g, 0)
    ensures ReleasedSlot(g, projectiles, exceptFor, i) ==>
      Released(HooksBelow(g, projectiles, i + 1), exceptFor) ==
        Released(HooksBelow(g, projectiles, i), exceptFor) + [Hook(projectiles[g[i]].value, i)]
    ensures !ReleasedSlot(g, projectiles, exceptFor, i) ==>
      Released(HooksBelow(g, projectiles, i + 1), exceptFor) == Released(HooksBelow(g, projectiles, i), exceptFor)
  {
    var before := HooksBelow(g, projectiles, i);
    var id := g[i];
    if projectiles[id].Some? && projectiles[id].value.active {
      var h := Hook(projectiles[id].value, i);
      assert HooksBelow(g, projectiles, i + 1) == before + [h];
      ReleasedAppend(before, h, exceptFor);
    } else {
      assert HooksBelow(g, projectiles, i + 1) == before;
    }
  }

  /** Released of a sequence extended by one hook. */
  lemma ReleasedAppend(hooks: seq<Hook>, h: Hook, exceptFor: Option<Projectile>)
    ensures Releases(h, exceptFor) ==> Released(hooks + [h], exceptFor) == Released(hooks, exceptFor) + [h]
    ensures !Releases(h, exceptFor) ==> Released(hooks + [h], exceptFor) == Released(hooks, exceptFor)
  {
    assert (hooks + [h])[..|hooks|] == hooks;
  }

  /** Released keeps exactly the releasing hooks of its argument. */
  lemma {:induction false} ReleasedIsFilter(hooks: seq<Hook>, exceptFor: Option<Projectile>)
    ensures forall h :: h in Released(hooks, exceptFor) <==> h in hooks && Releases(h, exceptFor)
    decreases |hooks|
  {
    if hooks != [] {
      var init := hooks[..|hooks| - 1];
      ReleasedIsFilter(init, exceptFor);
      assert hooks == init + [hooks[|hooks| - 1]];
    }
  }

  /** Releases, in place, every enumerated hook that is latched and is not
      `exceptFor`: its slot becomes -1 and its projectile is killed. Each slot
      is written only after it has been read, so the enumeration sees the
      original ids; no other slot changes. `killed` records the Kill calls. */
  method StopGrappling(p: Player, projectiles: seq<Option<Projectile>>, exceptFor: Option<Projectile>)
      returns (killed: seq<Hook>)
    requires HookIdsValid(p.grappling[..], projectiles)
    modifies p.grappling
    ensures killed == Released(GrapplingHooks(old(p.grappling[..]), projectiles), exceptFor)
    ensures forall k :: 0 <= k < p.grappling.Length ==>
      p.grappling[k] == if ReleasedSlot(old(p.grappling[..]), projectiles, exceptFor, k) then -1 else old(p.grappling[k])
  {
    ghost var g := p.grappling[..];
    killed := [];
    var i := 0;
    while i < p.grappling.Length
      invariant 0 <= i <= FirstNegative(g, 0)
      invariant killed == Released(HooksBelow(g, projectiles, i), exceptFor)
      invariant p.grappling[..] == ReleasedBelow(g, projectiles, exceptFor, i)
    {
      var id := p.grappling[i];
      if id < 0 {
        break;
      }
      assert g[i] == id && id < |projectiles|;
      var hook := projectiles[id];
      ReleasedBelowStep(g, projectiles, exceptFor, i);
      ReleasedHooksStep(g, projectiles, exceptFor, i);
      if hook.Some? && hook.value.active && Some(hook.value) != exceptFor && hook.value.ai0 == 2.0 {
        killed := killed + [Hook(hook.value, i)];
        p.grappling[i] := -1;
        assert p.grappling[..] == ReleasedBelow(g, projectiles, exceptFor, i)[i := -1];
      }
      i := i + 1;
    }
    assert i == FirstNegative(g, 0);
    forall k | 0 <= k < p.grappling.Length
      ensures p.grappling[k] == if ReleasedSlot(g, projectiles, exceptFor, k) then -1 else g[k]
    {
      assert p.grappling[k] == ReleasedBelow(g, projectiles, exceptFor, i)[k];
    }
  }
}
