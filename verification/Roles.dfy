// Role lists (dcdtRoles.go): searched, extended and shortened in place. The bounded list of transfer
// addresses (dcdtTransferRole.go) uses the same lists.
module Roles {
  import opened Bytes
  import opened Wrappers

  // ----- lists as values -----

  function IndexOf(list: seq<bytes>, x: bytes): (i: nat)
    ensures i <= |list|
    ensures i < |list| ==> list[i] == x
    ensures forall k :: 0 <= k < i ==> list[k] != x
  {
    if list == [] || list[0] == x then 0 else 1 + IndexOf(list[1..], x)
  }

  /** Without the first occurrence of `x`. */
  function RemoveOne(list: seq<bytes>, x: bytes): seq<bytes> {
    var i := IndexOf(list, x);
    if i == |list| then list else list[..i] + list[i + 1..]
  }

  /** What `deleteRoles` leaves. */
  function RemoveEach(list: seq<bytes>, xs: seq<bytes>): seq<bytes>
    decreases |xs|
  {
    if xs == [] then list else RemoveEach(RemoveOne(list, xs[0]), xs[1..])
  }

  lemma RemoveOneCounts(list: seq<bytes>, x: bytes)
    ensures multiset(RemoveOne(list, x)) == multiset(list) - multiset{x}
  {
    var i := IndexOf(list, x);
    if i < |list| {
      assert list == list[..i] + [x] + list[i + 1..];
    }
  }

  lemma MinusTwice(a: multiset<bytes>, x: bytes, b: multiset<bytes>)
    ensures a - multiset{x} - b == a - (multiset{x} + b)
  {
    assert forall y :: (a - multiset{x} - b)[y] == (a - (multiset{x} + b))[y];
  }

  /** Deleting a list of roles takes each named one away once, as often as it is named and present. */
  lemma {:induction false} RemoveEachCounts(list: seq<bytes>, xs: seq<bytes>)
    ensures multiset(RemoveEach(list, xs)) == multiset(list) - multiset(xs)
    decreases |xs|
  {
    if xs != [] {
      RemoveOneCounts(list, xs[0]);
      RemoveEachCounts(RemoveOne(list, xs[0]), xs[1..]);
      assert multiset(xs) == multiset{xs[0]} + multiset(xs[1..]) by {
        assert xs == [xs[0]] + xs[1..];
      }
      MinusTwice(multiset(list), xs[0], multiset(xs[1..]));
    }
  }

  /** After one deletion a role is still listed exactly when it was listed at least twice. */
  lemma StillListed(list: seq<bytes>, x: bytes)
    ensures x in RemoveEach(list, [x]) <==> multiset(list)[x] >= 2
  {
    RemoveEachCounts(list, [x]);
    assert x in RemoveEach(list, [x]) <==> x in multiset(RemoveEach(list, [x]));
  }

  lemma OtherRolesStay(list: seq<bytes>, xs: seq<bytes>, y: bytes)
    requires y !in xs
    ensures multiset(RemoveEach(list, xs))[y] == multiset(list)[y]
  {
    RemoveEachCounts(list, xs);
    assert multiset(xs)[y] == 0;
  }

  // ----- lists in place -----

  /** `dcdt.DCDTRoles`: a slice over an array. */
  class RoleList {
    var data: array<bytes>
    var len: nat

    ghost predicate Valid()
      reads this
    {
      len <= data.Length
    }

    function Contents(): seq<bytes>
      reads this, data
      requires Valid()
    {
      data[..len]
    }

    constructor (list: seq<bytes>)
      ensures Valid() && fresh(data) && Contents() == list
    {
      data := new bytes[|list|](i requires 0 <= i < |list| => list[i]);
      len := |list|;
    }

    /** `doesRoleExist` */
    method DoesRoleExist(role: bytes) returns (index: nat, exists_: bool)
      requires Valid()
      ensures exists_ <==> role in Contents()
      ensures exists_ ==> index == IndexOf(Contents(), role) < len
    {
      index := 0;
      while index < len
        invariant index <= len && forall k :: 0 <= k < index ==> data[k] != role
      {
        if data[index] == role {
          FirstAt(Contents(), role, index);
          return index, true;
        }
        index := index + 1;
      }
      return index, false;
    }

    /** `append` */
    method Append(role: bytes)
      requires Valid()
      modifies this
      ensures Valid() && fresh(data) && Contents() == old(Contents()) + [role]
    {
      var longer := new bytes[len + 1](i requires 0 <= i <= len reads this, data requires Valid() =>
        if i < len then data[i] else role);
      assert longer[..len + 1] == data[..len] + [role];
      data, len := longer, len + 1;
    }

    /** Shifts what follows `index` down and drops the last place. */
    method RemoveAt(index: nat)
      requires Valid() && index < len
      modifies this`len, data
      ensures Valid() && Contents() == old(Contents())[..index] + old(Contents())[index + 1..]
    {
      forall i | index <= i < len - 1 {
        data[i] := data[i + 1];
      }
      data[len - 1] := [];
      len := len - 1;
    }

    /** The body of the loop of `deleteRoles`. */
    method DeleteRole(role: bytes)
      requires Valid()
      modifies this`len, data
      ensures Valid() && Contents() == RemoveOne(old(Contents()), role)
    {
      ghost var list := Contents();
      var index, exists_ := DoesRoleExist(role);
      NotListed(list, role);
      if exists_ {
        RemoveAt(index);
        assert Contents() == list[..index] + list[index + 1..];
      }
    }

    /** `deleteRoles` */
    method DeleteRoles(roles: seq<bytes>)
      requires Valid()
      modifies this`len, data
      ensures Valid() && Contents() == RemoveEach(old(Contents()), roles)
    {
      ghost var all := RemoveEach(Contents(), roles);
      for i := 0 to |roles|
        invariant Valid()
        invariant RemoveEach(Contents(), roles[i..]) == all
      {
        assert roles[i..][1..] == roles[i + 1..];
        DeleteRole(roles[i]);
      }
    }

    /** The loop of `addNewAddresses`, with its bound. */
    method AddNew(addresses: seq<bytes>, maxNum: nat) returns (r: Result<()>)
      requires Valid()
      modifies this
      ensures Valid() && Contents() == AddMissing(old(Contents()), addresses)
      ensures r == Need(|Contents()| <= maxNum, TooManyTransferAddresses)
    {
      for i := 0 to |addresses|
        invariant Valid()
        invariant AddMissing(Contents(), addresses[i..]) == AddMissing(old(Contents()), addresses)
      {
        assert addresses[i..][1..] == addresses[i + 1..];
        var isNew := true;
        var k := 0;
        while k < len
          invariant k <= len && isNew && addresses[i] !in data[..k]
        {
          if addresses[i] == data[k] {
            isNew := false;
            break;
          }
          k := k + 1;
        }
        if isNew {
          Append(addresses[i]);
        }
      }
      if len > maxNum {
        return Err(TooManyTransferAddresses);
      }
      return Ok(());
    }
  }

  lemma {:induction false} FirstAt(list: seq<bytes>, x: bytes, i: nat)
    requires i < |list| && list[i] == x && forall k :: 0 <= k < i ==> list[k] != x
    ensures IndexOf(list, x) == i
  {
    if i > 0 {
      FirstAt(list[1..], x, i - 1);
    }
  }

  lemma NotListed(list: seq<bytes>, x: bytes)
    ensures IndexOf(list, x) == |list| <==> x !in list
  {
    var i := IndexOf(list, x);
  }

  // ----- transfer addresses -----

  /** The list with every address that it does not hold yet at its end. */
  function AddMissing(list: seq<bytes>, xs: seq<bytes>): seq<bytes>
    decreases |xs|
  {
    if xs == [] then list
    else AddMissing(if xs[0] in list then list else list + [xs[0]], xs[1..])
  }

  predicate NoRepeats(list: seq<bytes>) {
    forall i, k :: 0 <= i < k < |list| ==> list[i] != list[k]
  }

  /** Adding keeps the list in front, holds exactly the old and the new addresses, and never repeats one. */
  lemma {:induction false} AddMissingAdds(list: seq<bytes>, xs: seq<bytes>)
    ensures list <= AddMissing(list, xs)
    ensures forall x :: x in AddMissing(list, xs) <==> x in list || x in xs
    ensures NoRepeats(list) ==> NoRepeats(AddMissing(list, xs))
    decreases |xs|
  {
    if xs != [] {
      var longer := if xs[0] in list then list else list + [xs[0]];
      AddMissingAdds(longer, xs[1..]);
      assert xs == [xs[0]] + xs[1..];
    }
  }

  lemma {:induction false} SetOfDistinct(list: seq<bytes>)
    requires NoRepeats(list)
    ensures |set x | x in list| == |list|
  {
    if list != [] {
      SetOfDistinct(list[1..]);
      assert (set x | x in list) == (set x | x in list[1..]) + {list[0]};
    }
  }

  /** Without repetitions the bound counts addresses: an addition is accepted exactly when old and new
      addresses together are at most the maximum, however often the arguments repeat them. */
  lemma AcceptedWithinBound(list: seq<bytes>, xs: seq<bytes>, maxNum: nat)
    requires NoRepeats(list)
    ensures |AddMissing(list, xs)| <= maxNum <==> |set x | x in list + xs| <= maxNum
  {
    AddMissingAdds(list, xs);
    SetOfDistinct(AddMissing(list, xs));
    assert (set x | x in AddMissing(list, xs)) == (set x | x in list + xs);
  }
}
