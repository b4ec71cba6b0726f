/**
 * The static directory of soldiers and its broadcast. Register and Unregister
 * guard List.Add and List.Remove with a membership test; the broadcast is a
 * foreach over the list, which throws on its next step once the list changed.
 */
module AlertSystem {
  import EnemyAI

  predicate NoDuplicates<T(==)>(s: seq<T>) {
    forall i, j :: 0 <= i < j < |s| ==> s[i] != s[j]
  }

  /** Register: append e unless it is already listed. */
  function Registered<T(==)>(list: seq<T>, e: T): seq<T> {
    if e in list then list else list + [e]
  }

  /** List.Remove: drop the first occurrence of e. */
  function RemoveFirst<T(==)>(list: seq<T>, e: T): seq<T> {
    if list == [] then []
    else if list[0] == e then list[1..]
    else [list[0]] + RemoveFirst(list[1..], e)
  }

  /** Unregister: remove e if it is listed. */
  function Unregistered<T(==)>(list: seq<T>, e: T): seq<T> {
    if e in list then RemoveFirst(list, e) else list
  }

  /** Every element other than e, in list order: what "the others keep their order" compares. */
  function Without<T(==)>(list: seq<T>, e: T): seq<T> {
    if list == [] then []
    else (if list[0] == e then [] else [list[0]]) + Without(list[1..], e)
  }

  // ---------- Register ----------

  /** Register adds e and nothing else, and keeps the list free of duplicates. */
  lemma RegisterContents<T>(list: seq<T>, e: T)
    requires NoDuplicates(list)
    ensures NoDuplicates(Registered(list, e))
    ensures forall x :: x in Registered(list, e) <==> x in list || x == e
  {
  }

  /** Registering twice is registering once; registering a member changes nothing. */
  lemma RegisterIdempotent<T>(list: seq<T>, e: T)
    ensures Registered(Registered(list, e), e) == Registered(list, e)
    ensures e in list ==> Registered(list, e) == list
  {
  }

  lemma {:induction false} WithoutAppend<T>(list: seq<T>, e: T)
    ensures Without(list + [e], e) == Without(list, e)
    decreases |list|
  {
    if list == [] {
      assert [e][1..] == [];
    } else {
      assert (list + [e])[1..] == list[1..] + [e];
      WithoutAppend(list[1..], e);
    }
  }

  /** Register leaves the order of the other members as it was. */
  lemma RegisterKeepsOrder<T>(list: seq<T>, e: T)
    ensures Without(Registered(list, e), e) == Without(list, e)
  {
    if e !in list {
      WithoutAppend(list, e);
    }
  }

  // ---------- Unregister ----------

  lemma {:induction false} WithoutAbsent<T>(list: seq<T>, e: T)
    requires e !in list
    ensures Without(list, e) == list
    decreases |list|
  {
    if list != [] {
      assert list == [list[0]] + list[1..];
      WithoutAbsent(list[1..], e);
    }
  }

  /** On a duplicate-free list removing the first e is removing every e. */
  lemma {:induction false} RemoveFirstIsWithout<T>(list: seq<T>, e: T)
    requires NoDuplicates(list)
    ensures RemoveFirst(list, e) == Without(list, e)
    decreases |list|
  {
    if list != [] {
      assert NoDuplicates(list[1..]) by {
        forall i, j | 0 <= i < j < |list[1..]| ensures list[1..][i] != list[1..][j] {
          assert list[1..][i] == list[i + 1] && list[1..][j] == list[j + 1];
        }
      }
      if list[0] == e {
        assert e !in list[1..] by {
          forall k | 0 <= k < |list[1..]| ensures list[1..][k] != e {
            assert list[1..][k] == list[k + 1];
          }
        }
        WithoutAbsent(list[1..], e);
      } else {
        RemoveFirstIsWithout(list[1..], e);
      }
    }
  }

  lemma {:induction false} WithoutContents<T>(list: seq<T>, e: T)
    ensures forall x :: x in Without(list, e) <==> x in list && x != e
    ensures |Without(list, e)| <= |list|
    ensures e in list ==> |Without(list, e)| < |list|
    decreases |list|
  {
    if list != [] {
      WithoutContents(list[1..], e);
      assert list == [list[0]] + list[1..];
    }
  }

  lemma {:induction false} WithoutKeepsNoDuplicates<T>(list: seq<T>, e: T)
    requires NoDuplicates(list)
    ensures NoDuplicates(Without(list, e))
    decreases |list|
  {
    if list != [] {
      var tail := list[1..];
      assert NoDuplicates(tail) by {
        forall i, j | 0 <= i < j < |tail| ensures tail[i] != tail[j] {
          assert tail[i] == list[i + 1] && tail[j] == list[j + 1];
        }
      }
      WithoutKeepsNoDuplicates(tail, e);
      WithoutContents(tail, e);
      assert list[0] !in tail by {
        forall k | 0 <= k < |tail| ensures tail[k] != list[0] {
          assert tail[k] == list[k + 1];
        }
      }
    }
  }

  /**
   * On a duplicate-free list Unregister removes exactly e, keeps every other
   * member in its order, and keeps the list duplicate-free; an absent e is a no-op.
   */
  lemma UnregisterContents<T>(list: seq<T>, e: T)
    requires NoDuplicates(list)
    ensures Unregistered(list, e) == Without(list, e)
    ensures NoDuplicates(Unregistered(list, e))
    ensures forall x :: x in Unregistered(list, e) <==> x in list && x != e
    ensures e !in list ==> Unregistered(list, e) == list
  {
    RemoveFirstIsWithout(list, e);
    WithoutKeepsNoDuplicates(list, e);
    WithoutContents(list, e);
    if e !in list {
      WithoutAbsent(list, e);
    }
  }

  /** Unregister keeps the order of the other members, duplicates or not. */
  lemma {:induction false} UnregisterKeepsOrder<T>(list: seq<T>, e: T)
    ensures Without(Unregistered(list, e), e) == Without(list, e)
    decreases |list|
  {
    if e in list && list != [] {
      if list[0] == e {
        assert list == [e] + list[1..];
      } else {
        assert list == [list[0]] + list[1..];
        UnregisterKeepsOrder(list[1..], e);
        assert Unregistered(list[1..], e) == RemoveFirst(list[1..], e);
        assert RemoveFirst(list, e) == [list[0]] + RemoveFirst(list[1..], e);
        assert ([list[0]] + RemoveFirst(list[1..], e))[1..] == RemoveFirst(list[1..], e);
      }
    }
  }

  /** Register then Unregister of a newcomer restores the list. */
  lemma RegisterUnregisterRoundTrip<T>(list: seq<T>, e: T)
    requires NoDuplicates(list) && e !in list
    ensures Unregistered(Registered(list, e), e) == list
  {
    RegisterContents(list, e);
    UnregisterContents(list + [e], e);
    WithoutAppend(list, e);
    WithoutAbsent(list, e);
  }

  // ---------- the broadcast ----------

  /** What one soldier's ForceAlert does to the directory, if anything. */
  datatype ListEdit<T> = NoEdit | RegisterCall(target: T) | UnregisterCall(target: T)

  function Apply<T(==)>(list: seq<T>, edit: ListEdit<T>): seq<T> {
    match edit
    case NoEdit => list
    case RegisterCall(x) => Registered(list, x)
    case UnregisterCall(x) => Unregistered(list, x)
  }

  /** Whether the edit reaches List.Add or List.Remove, which invalidates a running foreach. */
  predicate Mutates<T(==)>(list: seq<T>, edit: ListEdit<T>) {
    match edit
    case NoEdit => false
    case RegisterCall(x) => x !in list
    case UnregisterCall(x) => x in list
  }

  /** An edit mutates exactly when it changes the list. */
  lemma MutatesIffChanges<T>(list: seq<T>, edit: ListEdit<T>)
    ensures Mutates(list, edit) <==> Apply(list, edit) != list
  {
    if edit.UnregisterCall? && edit.target in list {
      RemoveFirstShorter(list, edit.target);
    }
  }

  lemma {:induction false} RemoveFirstShorter<T>(list: seq<T>, e: T)
    requires e in list
    ensures |RemoveFirst(list, e)| == |list| - 1
    decreases |list|
  {
    if list[0] != e {
      assert e in list[1..] by {
        var k :| 0 <= k < |list| && list[k] == e;
        assert list[1..][k - 1] == e;
      }
      RemoveFirstShorter(list[1..], e);
    }
  }

  /** Soldiers whose ForceAlert ran, the directory afterwards, and whether the loop ran to its end. */
  datatype BroadcastResult<T> = BroadcastResult(invoked: seq<T>, members: seq<T>, completed: bool)

  function Prepend<T>(front: seq<T>, r: BroadcastResult<T>): BroadcastResult<T> {
    r.(invoked := front + r.invoked)
  }

  /**
   * The foreach over list from the element rest[0] on: each soldier's
   * ForceAlert runs, and the first one that mutates the list ends the loop
   * with an exception after it returns.
   */
  function Walk<T(==)>(list: seq<T>, rest: seq<T>, forceAlert: T -> ListEdit<T>): (r: BroadcastResult<T>)
    ensures r.completed <==> forall k :: 0 <= k < |rest| ==> !Mutates(list, forceAlert(rest[k]))
    ensures r.completed ==> r.invoked == rest && r.members == list
    ensures !r.completed ==>
      && 0 < |r.invoked| <= |rest| && r.invoked == rest[..|r.invoked|]
      && (forall k :: 0 <= k < |r.invoked| - 1 ==> !Mutates(list, forceAlert(rest[k])))
      && Mutates(list, forceAlert(rest[|r.invoked| - 1]))
      && r.members == Apply(list, forceAlert(rest[|r.invoked| - 1]))
    decreases |rest|
  {
    if rest == [] then BroadcastResult([], list, true)
    else
      var edit := forceAlert(rest[0]);
      if Mutates(list, edit) then BroadcastResult([rest[0]], Apply(list, edit), false)
      else
        var r := Walk(list, rest[1..], forceAlert);
        assert forall k :: 1 <= k < |rest| ==> rest[k] == rest[1..][k - 1];
        Prepend([rest[0]], r)
  }

  /**
   * AlertAllEnemies: ForceAlert runs once per member in registration order.
   * A callback that changes the list makes the loop throw right after it.
   */
  function Broadcast<T(==)>(members: seq<T>, forceAlert: T -> ListEdit<T>): (r: BroadcastResult<T>)
    ensures r.completed <==> forall k :: 0 <= k < |members| ==> !Mutates(members, forceAlert(members[k]))
    ensures r.completed ==> r.invoked == members && r.members == members
    ensures !r.completed ==> 0 < |r.invoked| <= |members| && r.invoked == members[..|r.invoked|]
  {
    Walk(members, members, forceAlert)
  }

  /** A callback that never edits the directory sees everyone once, in order, and the directory stays. */
  lemma QuietBroadcast<T>(members: seq<T>)
    ensures Broadcast(members, (e: T) => NoEdit) == BroadcastResult(members, members, true)
  {
  }

  /** A soldier that unregisters itself ends the broadcast: later members are skipped. */
  lemma SelfUnregisterThrows<T>(members: seq<T>, i: nat, forceAlert: T -> ListEdit<T>)
    requires NoDuplicates(members) && i < |members|
    requires forceAlert(members[i]) == UnregisterCall(members[i])
    ensures !Broadcast(members, forceAlert).completed
    ensures |Broadcast(members, forceAlert).invoked| <= i + 1
  {
    assert Mutates(members, forceAlert(members[i]));
  }

  lemma WalkStep<T>(list: seq<T>, rest: seq<T>, forceAlert: T -> ListEdit<T>)
    requires rest != [] && !Mutates(list, forceAlert(rest[0]))
    ensures Walk(list, rest, forceAlert) == Prepend([rest[0]], Walk(list, rest[1..], forceAlert))
  {
  }

  lemma PrependAssoc<T>(a: seq<T>, b: seq<T>, r: BroadcastResult<T>)
    ensures Prepend(a, Prepend(b, r)) == Prepend(a + b, r)
  {
    assert a + (b + r.invoked) == (a + b) + r.invoked;
  }

  lemma TakeCons<T>(s: seq<T>, i: nat)
    requires 0 < i <= |s|
    ensures [s[0]] + s[1..][..i - 1] == s[..i]
    ensures s[1..][i - 1..] == s[i..]
  {
  }

  lemma {:induction false} WalkSplit<T>(list: seq<T>, rest: seq<T>, i: nat, forceAlert: T -> ListEdit<T>)
    requires i <= |rest|
    requires forall k :: 0 <= k < i ==> !Mutates(list, forceAlert(rest[k]))
    ensures Walk(list, rest, forceAlert) == Prepend(rest[..i], Walk(list, rest[i..], forceAlert))
    decreases i
  {
    if i == 0 {
      assert rest[..0] == [] && rest[0..] == rest;
      var r := Walk(list, rest, forceAlert);
      assert [] + r.invoked == r.invoked;
    } else {
      var tail := rest[1..];
      WalkStep(list, rest, forceAlert);
      forall k | 0 <= k < i - 1 ensures !Mutates(list, forceAlert(tail[k])) {
        assert tail[k] == rest[k + 1];
      }
      WalkSplit(list, tail, i - 1, forceAlert);
      TakeCons(rest, i);
      PrependAssoc([rest[0]], tail[..i - 1], Walk(list, rest[i..], forceAlert));
    }
  }

  class AlertRegistry {
    var members: seq<EnemyAI.Enemy>
    /** List<T>'s modification count: Add and Remove bump it, a running foreach checks it. */
    var version: nat

    ghost predicate Valid()
      reads this
    {
      NoDuplicates(members)
    }

    constructor ()
      ensures Valid() && members == []
    {
      members, version := [], 0;
    }

    method Register(e: EnemyAI.Enemy)
      modifies this
      ensures members == Registered(old(members), e)
      ensures version != old(version) <==> Mutates(old(members), RegisterCall(e))
      ensures old(Valid()) ==> Valid()
    {
      if e !in members {
        members := members + [e];
        version := version + 1;
      }
    }

    method Unregister(e: EnemyAI.Enemy)
      modifies this
      ensures members == Unregistered(old(members), e)
      ensures version != old(version) <==> Mutates(old(members), UnregisterCall(e))
      ensures old(Valid()) ==> Valid()
    {
      if old(Valid()) {
        UnregisterContents(members, e);
      }
      if e in members {
        members := RemoveFirst(members, e);
        version := version + 1;
      }
    }

    /** The directory effect of one ForceAlert call. */
    method ForceAlert(edit: ListEdit<EnemyAI.Enemy>)
      modifies this
      ensures members == Apply(old(members), edit)
      ensures version != old(version) <==> Mutates(old(members), edit)
      ensures old(Valid()) ==> Valid()
    {
      match edit {
        case NoEdit =>
        case RegisterCall(x) => Register(x);
        case UnregisterCall(x) => Unregister(x);
      }
    }

    /**
     * Calls ForceAlert on every member in order; forceAlert says what each
     * call does to this directory. completed is false when the loop threw.
     */
    method AlertAllEnemies(forceAlert: EnemyAI.Enemy -> ListEdit<EnemyAI.Enemy>)
      returns (invoked: seq<EnemyAI.Enemy>, completed: bool)
      modifies this
      ensures BroadcastResult(invoked, members, completed) == Broadcast(old(members), forceAlert)
      ensures old(Valid()) ==> Valid()
    {
      invoked, completed := [], true;
      var v := version;
      var i := 0;
      while i < |members|
        invariant 0 <= i <= |members| && members == old(members) && version == v
        invariant invoked == members[..i]
        invariant forall k :: 0 <= k < i ==> !Mutates(members, forceAlert(members[k]))
      {
        var e := members[i];
        invoked := invoked + [e];
        ghost var list := members;
        ForceAlert(forceAlert(e));
        if version != v {
          // the enumerator's next MoveNext throws InvalidOperationException
          completed := false;
          WalkSplit(list, list, i, forceAlert);
          assert list[..i] + [e] == list[..i + 1];
          return;
        }
        i := i + 1;
      }
      WalkSplit(members, members, i, forceAlert);
    }
  }
}
