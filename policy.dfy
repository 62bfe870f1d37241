/** The inclusion policy and the aggregator of the refactored generator:
    which items a role sees, which of them are flagged as priority, and
    their total. */
module Policy {
  import opened Domain

  const PriorityThreshold := 1000
  const UserValueLimit := 500

  /** `shouldIncludeItem`: ADMIN sees everything, USER sees the items worth at
      most `UserValueLimit`, any other role sees nothing. */
  predicate ShouldIncludeItem(user: User, item: Item)
    ensures user.role == Admin ==> ShouldIncludeItem(user, item)
    ensures user.role == Other ==> !ShouldIncludeItem(user, item)
    ensures user.role == Regular ==> (ShouldIncludeItem(user, item) <==> item.value <= UserValueLimit)
  {
    if user.role == Admin then true
    else user.role == Regular && item.value <= UserValueLimit
  }

  /** The copy `{ ...item }` with `priority` set for a large item seen by an
      ADMIN; every other field is the input's. */
  function Process(user: User, item: Item): (r: Item)
    ensures r.id == item.id && r.name == item.name && r.value == item.value
    ensures r.priority == (item.priority || (user.role == Admin && item.value > PriorityThreshold))
  {
    if user.role == Admin && item.value > PriorityThreshold then item.(priority := true) else item
  }

  /** The list `filterItemsByUserRole` builds: the processed copies of the
      included items, in input order. */
  function FilterItems(user: User, items: seq<Item>): (filtered: seq<Item>)
    ensures |filtered| <= |items|
    ensures forall k :: 0 <= k < |filtered| ==> ShouldIncludeItem(user, filtered[k])
    decreases |items|
  {
    if items == [] then []
    else
      var kept := FilterItems(user, items[..|items| - 1]);
      var item := items[|items| - 1];
      if ShouldIncludeItem(user, item) then kept + [Process(user, item)] else kept
  }

  /** `filterItemsByUserRole`: one pass over `items`, pushing a processed
      copy of each included item. */
  method FilterItemsByUserRole(user: User, items: seq<Item>) returns (filtered: seq<Item>)
    ensures filtered == FilterItems(user, items)
  {
    filtered := [];
    for i := 0 to |items|
      invariant filtered == FilterItems(user, items[..i])
    {
      var item := items[i];
      if ShouldIncludeItem(user, item) {
        var processedItem := item;
        if user.role == Admin && item.value > PriorityThreshold {
          processedItem := processedItem.(priority := true);
        }
        filtered := filtered + [processedItem];
      }
      assert items[..i + 1][..i] == items[..i];
    }
    assert items[..|items|] == items;
  }

  /** `sub` can be obtained from `s` by deleting elements. */
  ghost predicate IsSubsequence<T>(sub: seq<T>, s: seq<T>)
    decreases |s|
  {
    if sub == [] then true
    else if s == [] then false
    else (sub[|sub| - 1] == s[|s| - 1] && IsSubsequence(sub[..|sub| - 1], s[..|s| - 1]))
         || IsSubsequence(sub, s[..|s| - 1])
  }

  /** An ADMIN keeps every item, in order, each with only `priority` possibly
      changed: set when its value exceeds the threshold, kept otherwise. */
  lemma {:induction false} AdminKeepsEveryItem(user: User, items: seq<Item>)
    requires user.role == Admin
    ensures |FilterItems(user, items)| == |items|
    ensures forall i :: 0 <= i < |items| ==>
      FilterItems(user, items)[i] == items[i].(priority := items[i].priority || items[i].value > PriorityThreshold)
  {
    if items != [] {
      AdminKeepsEveryItem(user, items[..|items| - 1]);
    }
  }

  /** A USER gets exactly the items worth at most `UserValueLimit`, unchanged,
      in input order and with their multiplicity. */
  lemma {:induction false} RegularKeepsSmallItemsInOrder(user: User, items: seq<Item>)
    requires user.role == Regular
    ensures IsSubsequence(FilterItems(user, items), items)
    ensures forall x :: multiset(FilterItems(user, items))[x] ==
                        (if x.value <= UserValueLimit then multiset(items)[x] else 0)
  {
    if items != [] {
      var prefix, item := items[..|items| - 1], items[|items| - 1];
      RegularKeepsSmallItemsInOrder(user, prefix);
      var kept := FilterItems(user, prefix);
      assert items == prefix + [item];
      if ShouldIncludeItem(user, item) {
        assert (kept + [item])[..|kept|] == kept;
      }
    }
  }

  /** Any role other than ADMIN and USER sees nothing. */
  lemma {:induction false} OtherRoleKeepsNothing(user: User, items: seq<Item>)
    requires user.role == Other
    ensures FilterItems(user, items) == []
  {
    if items != [] {
      OtherRoleKeepsNothing(user, items[..|items| - 1]);
    }
  }

  /** For items that arrive without a priority flag, a kept item is flagged
      exactly when the user is an ADMIN and the value exceeds the threshold. */
  lemma {:induction false} PriorityOnlyForLargeAdminItems(user: User, items: seq<Item>)
    requires forall i :: 0 <= i < |items| ==> !items[i].priority
    ensures forall k :: 0 <= k < |FilterItems(user, items)| ==>
      (FilterItems(user, items)[k].priority <==>
        user.role == Admin && FilterItems(user, items)[k].value > PriorityThreshold)
  {
    if items != [] {
      PriorityOnlyForLargeAdminItems(user, items[..|items| - 1]);
    }
  }

  /** `calculateTotal`: the sum of `value` over the list, 0 for none. */
  function CalculateTotal(items: seq<Item>): (total: int)
    ensures items == [] ==> total == 0
    ensures (forall i :: 0 <= i < |items| ==> items[i].value >= 0) ==> total >= 0
    decreases |items|
  {
    if items == [] then 0 else CalculateTotal(items[..|items| - 1]) + items[|items| - 1].value
  }

  /** The total of a concatenation is the sum of the totals; with
      `CalculateTotal([]) == 0` this makes it the sum of the values. */
  lemma {:induction false} CalculateTotalAppend(a: seq<Item>, b: seq<Item>)
    ensures CalculateTotal(a + b) == CalculateTotal(a) + CalculateTotal(b)
    decreases |b|
  {
    if b == [] {
      assert a + b == a;
    } else {
      var b' := b[..|b| - 1];
      CalculateTotalAppend(a, b');
      assert (a + b)[..|a + b| - 1] == a + b';
    }
  }
}
