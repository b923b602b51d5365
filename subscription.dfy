/** `OrderSubscription` in products/schema.py: the list of channel groups a
    subscription is in, which `subscribe` and `unsubscribe` extend and shrink
    for a seller asking about their own orders. */
module Subscriptions {
  import opened Common

  /** `info.context.user`, as far as the checks read it. */
  datatype User = User(isAuthenticated: bool, isSeller: bool, id: Id)

  /** The check both handlers make: an authenticated seller asking for their
      own id (`int(seller_id)`), so a handler only ever touches the caller's own group. */
  predicate Authorized(user: User, sellerId: int)
    ensures Authorized(user, sellerId) ==> user.isAuthenticated && user.isSeller
    ensures Authorized(user, sellerId) ==> sellerId >= 0 && GroupName(sellerId) == GroupName(user.id)
  {
    user.isAuthenticated && user.isSeller && user.id == sellerId
  }

  /** `f'seller_{user.id}'`: the prefix `seller_`, then the digits that spell the id. */
  function GroupName(id: Id): (g: string)
    ensures |g| > 7 && g[..7] == "seller_"
    ensures IsDigits(g[7..]) && DigitsValue(g[7..]) == id
  {
    var g := "seller_" + Decimal(id);
    assert g[7..] == Decimal(id);
    g
  }

  /** Each seller has a group of their own: different ids never share a group name. */
  lemma GroupNameInjective(a: Id, b: Id)
    requires GroupName(a) == GroupName(b)
    ensures a == b
  {
  }

  /** The position of the first occurrence of `x`. */
  function IndexOf(s: seq<string>, x: string): (k: nat)
    requires x in s
    ensures k < |s| && s[k] == x && x !in s[..k]
  {
    if s[0] == x then 0 else 1 + IndexOf(s[1..], x)
  }

  /** `list.remove(x)` on a list that holds `x`: drop its first occurrence,
      keep the rest in order; the list loses exactly one copy of `x`. */
  function RemoveFirst(s: seq<string>, x: string): (r: seq<string>)
    requires x in s
    ensures |r| == |s| - 1
    ensures multiset(r) == multiset(s) - multiset{x}
  {
    var k := IndexOf(s, x);
    assert s == s[..k] + [x] + s[k + 1..];
    s[..k] + s[k + 1..]
  }

  /** Unsubscribing right after subscribing leaves the same groups, counted
      with multiplicity; when the group was not there before, the very same list. */
  lemma UnsubscribeUndoesSubscribe(groups: seq<string>, g: string)
    ensures g in groups + [g]
    ensures multiset(RemoveFirst(groups + [g], g)) == multiset(groups)
    ensures g !in groups ==> RemoveFirst(groups + [g], g) == groups
  {
    var s := groups + [g];
    assert s[|groups|] == g;
    assert multiset(s) == multiset(groups) + multiset{g};
    if g !in groups {
      assert s[..|groups|] == groups;
      assert IndexOf(s, g) == |groups|;
    }
  }

  /** The `self.groups` list of one subscription. */
  class OrderSubscription {
    var groups: seq<string>

    constructor ()
      ensures groups == []
    {
      groups := [];
    }

    /** `OrderSubscription.subscribe`: join the seller's own group and return
        it, or return `None` and join nothing. */
    method Subscribe(user: User, sellerId: int) returns (r: Option<seq<string>>)
      modifies this
      ensures Authorized(user, sellerId) ==>
        groups == old(groups) + [GroupName(user.id)] && r == Some([GroupName(user.id)])
      ensures !Authorized(user, sellerId) ==> groups == old(groups) && r == None
    {
      if Authorized(user, sellerId) {
        var groupName := GroupName(user.id);
        groups := groups + [groupName];
        return Some([groupName]);
      }
      return None;
    }

    /** `OrderSubscription.unsubscribe`: leave the seller's group and return
        `True`, or return `False`; `remove` raises `ValueError` when the group
        is not in the list. */
    method Unsubscribe(user: User, sellerId: int) returns (r: Result<bool>)
      modifies this
      ensures Authorized(user, sellerId) && GroupName(user.id) in old(groups) ==>
        groups == RemoveFirst(old(groups), GroupName(user.id)) && r == Success(true)
      ensures Authorized(user, sellerId) && GroupName(user.id) !in old(groups) ==>
        groups == old(groups) && r == Failure(ValueError)
      ensures !Authorized(user, sellerId) ==> groups == old(groups) && r == Success(false)
    {
      if Authorized(user, sellerId) {
        var groupName := GroupName(user.id);
        if groupName !in groups {
          return Failure(ValueError);
        }
        groups := RemoveFirst(groups, groupName);
        return Success(true);
      }
      return Success(false);
    }
  }
}
