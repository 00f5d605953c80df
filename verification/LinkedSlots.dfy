/**
  Lists threaded through a table: a head and a next link per slot, with -1 for NULL.
  The loops walk the links; what they do is stated about the sequence of linked slots.
 */
module LinkedSlots {
  import opened Sequences
  import opened ProcessTable

  const NULL: int := -1

  ghost predicate Linked(head: int, links: seq<int>, list: seq<nat>) {
    && Below(list, |links|)
    && head == (if list == [] then NULL else list[0])
    && forall i :: 0 <= i < |list| ==> links[list[i]] == if i + 1 < |list| then list[i + 1] else NULL
  }

  lemma LinkedFrame(head: int, links: seq<int>, links': seq<int>, list: seq<nat>)
    requires Linked(head, links, list) && |links'| == |links|
    requires forall x :: x in list && x < |links| ==> links'[x] == links[x]
    ensures Linked(head, links', list)
  {
    assert forall i :: 0 <= i < |list| ==> list[i] in list;
  }

  lemma LinkAt(head: int, links: seq<int>, list: seq<nat>, i: nat)
    requires Linked(head, links, list) && i < |list|
    ensures list[i] < |links| && links[list[i]] == if i + 1 < |list| then list[i + 1] else NULL
  {}

  /** Walk to the end of a list and link slot s there. */
  method AppendLink(heads: array<int>, h: nat, links: array<int>, s: nat, ghost list: seq<nat>)
    requires heads != links && h < heads.Length && s < links.Length
    requires Linked(heads[h], links[..], list) && Distinct(list) && s !in list
    modifies heads, links
    ensures Linked(heads[h], links[..], list + [s])
    ensures forall i :: 0 <= i < heads.Length && i != h ==> heads[i] == old(heads[i])
    ensures forall x :: 0 <= x < links.Length && x != s && x !in list ==> links[x] == old(links[x])
  {
    ghost var before, head := links[..], heads[h];
    if heads[h] == NULL {
      heads[h] := s;
    } else {
      var temp, i := heads[h], 0;
      while links[temp] != NULL
        invariant i < |list| && temp == list[i] && links[..] == before && heads[..] == old(heads[..])
        decreases |list| - i
      {
        LinkAt(head, before, list, i);
        temp, i := links[temp], i + 1;
      }
      LinkAt(head, before, list, i);
      assert temp == list[|list| - 1];
      links[temp] := s;
    }
    links[s] := NULL;
    forall i: nat | i < |list| ensures links[list[i]] == (list + [s])[i + 1] {
      LinkAt(head, before, list, i);
      assert list[i] in list;
    }
  }

  method PrependLink(heads: array<int>, h: nat, links: array<int>, s: nat, ghost list: seq<nat>)
    requires heads != links && h < heads.Length && s < links.Length
    requires Linked(heads[h], links[..], list) && s !in list
    modifies heads, links
    ensures Linked(heads[h], links[..], [s] + list)
    ensures forall i :: 0 <= i < heads.Length && i != h ==> heads[i] == old(heads[i])
    ensures forall x :: 0 <= x < links.Length && x != s ==> links[x] == old(links[x])
  {
    links[s] := heads[h];
    heads[h] := s;
    assert forall i :: 0 <= i < |list| ==> list[i] in list;
  }

  /** Unlink the i-th slot of a list, whose predecessor is `prev`, or the head if that is NULL. */
  method Unlink(heads: array<int>, h: nat, links: array<int>, prev: int, s: nat, ghost list: seq<nat>, ghost i: nat)
    requires heads != links && h < heads.Length
    requires Linked(heads[h], links[..], list) && Distinct(list) && i < |list| && s == list[i]
    requires prev == if i == 0 then NULL else list[i - 1]
    modifies heads, links
    ensures Linked(heads[h], links[..], Without(list, i))
    ensures forall j :: 0 <= j < heads.Length && j != h ==> heads[j] == old(heads[j])
    ensures forall x :: 0 <= x < links.Length && x !in list ==> links[x] == old(links[x])
  {
    ghost var before, head := links[..], heads[h];
    LinkAt(head, before, list, i);
    if prev == NULL {
      heads[h] := links[s];
    } else {
      links[prev] := links[s];
    }
    links[s] := NULL;
    UnlinkedIs(head, before, links[..], list, i, Without(list, i));
  }

  ghost predicate IsWithout(list: seq<nat>, i: nat, rest: seq<nat>) {
    i < |list| && |rest| == |list| - 1 && forall j :: 0 <= j < |rest| ==> rest[j] == list[if j < i then j else j + 1]
  }

  /** The list that is left when the predecessor of the i-th slot is pointed past it. */
  lemma UnlinkedIs(head: int, links: seq<int>, links': seq<int>, list: seq<nat>, i: nat, rest: seq<nat>)
    requires Linked(head, links, list) && Distinct(list) && i < |list| && |links'| == |links|
      && IsWithout(list, i, rest)
    requires i > 0 ==> links'[list[i - 1]] == links[list[i]]
    requires forall j :: 0 <= j < |list| && j != i && j + 1 != i ==> links'[list[j]] == links[list[j]]
    ensures Linked(if i == 0 then links[list[0]] else head, links', rest)
  {
    LinkAt(head, links, list, i);
    assert rest != [] ==> rest[0] == list[if i == 0 then 1 else 0];
    assert Below(rest, |links'|);
    forall j | 0 <= j < |rest| ensures links'[rest[j]] == if j + 1 < |rest| then rest[j + 1] else NULL {
      var k := if j < i then j else j + 1;
      LinkAt(head, links, list, k);
      assert rest[j] == list[k] && list[k] != list[i];
      assert j + 1 < |rest| ==> rest[j + 1] == list[if j + 1 < i then j + 1 else j + 2];
    }
  }

  /** remove_from_ready_queue: find s by walking the links, then unlink it. */
  method FindAndUnlink(heads: array<int>, h: nat, links: array<int>, s: nat, ghost list: seq<nat>)
    requires heads != links && h < heads.Length
    requires Linked(heads[h], links[..], list) && Distinct(list)
    modifies heads, links
    ensures Linked(heads[h], links[..], Removed(list, s))
    ensures forall j :: 0 <= j < heads.Length && j != h ==> heads[j] == old(heads[j])
    ensures forall x :: 0 <= x < links.Length && x !in list ==> links[x] == old(links[x])
  {
    ghost var before, head := links[..], heads[h];
    var prev, cur, i := NULL, heads[h], 0;
    while cur != NULL && cur != s
      invariant i <= |list| && cur == (if i < |list| then list[i] else NULL)
      invariant prev == if i == 0 then NULL else list[i - 1]
      invariant s !in list[..i] && links[..] == before && heads[..] == old(heads[..])
      decreases |list| - i
    {
      LinkAt(head, before, list, i);
      prev, cur, i := cur, links[cur], i + 1;
    }
    RemovedIs(list, s, i);
    if cur != NULL {
      Unlink(heads, h, links, prev, s, list, i);
    }
  }

  lemma WithoutCons(list: seq<nat>, i: nat)
    requires 0 < i <= |list|
    ensures list == [list[0]] + list[1..]
    ensures i < |list| ==> Without(list, i) == [list[0]] + Without(list[1..], i - 1)
  {}

  lemma {:induction false} RemovedIs(list: seq<nat>, s: nat, i: nat)
    requires i <= |list| && (forall j :: 0 <= j < i ==> list[j] != s) && (i < |list| ==> list[i] == s)
    ensures Removed(list, s) == if i < |list| then Without(list, i) else list
  {
    if i > 0 {
      RemovedIs(list[1..], s, i - 1);
      WithoutCons(list, i);
    } else if list != [] {
      assert Without(list, 0) == list[1..];
    }
  }

  // --- several lists through one array of links -------------------------------------------------

  ghost predicate AllLinked(heads: seq<int>, links: seq<int>, lists: seq<seq<nat>>) {
    |heads| == |lists| && forall h :: 0 <= h < |lists| ==> Linked(heads[h], links, lists[h])
  }

  ghost predicate Apart(lists: seq<seq<nat>>) {
    && (forall h :: 0 <= h < |lists| ==> Distinct(lists[h]))
    && (forall g, h, x :: 0 <= g < |lists| && 0 <= h < |lists| && g != h && x in lists[g] ==> x !in lists[h])
  }

  ghost predicate OnNone(lists: seq<seq<nat>>, s: nat) {
    forall h :: 0 <= h < |lists| ==> s !in lists[h]
  }

  /** Relinking one list, and slots on none, leaves the others as they were. */
  lemma OthersLinked(heads: seq<int>, heads': seq<int>, links: seq<int>, links': seq<int>, lists: seq<seq<nat>>,
        h: nat, list: seq<nat>)
    requires AllLinked(heads, links, lists) && Apart(lists) && h < |lists|
    requires |heads'| == |heads| && |links'| == |links| && Linked(heads'[h], links', list)
    requires forall g :: 0 <= g < |heads| && g != h ==> heads'[g] == heads[g]
    requires forall x :: 0 <= x < |links| && x !in lists[h] && !OnNone(lists, x) ==> links'[x] == links[x]
    ensures AllLinked(heads', links', lists[h := list])
  {
    hide Linked;
    forall g | 0 <= g < |lists| && g != h ensures Linked(heads'[g], links', lists[g]) {
      LinkedFrame(heads[g], links, links', lists[g]);
    }
  }

  method LinkIn(heads: array<int>, h: nat, links: array<int>, s: nat, atEnd: bool, ghost lists: seq<seq<nat>>)
    requires heads != links && h < heads.Length && s < links.Length
    requires AllLinked(heads[..], links[..], lists) && Apart(lists) && OnNone(lists, s)
    modifies heads, links
    ensures AllLinked(heads[..], links[..], lists[h := if atEnd then lists[h] + [s] else [s] + lists[h]])
  {
    hide Linked;
    ghost var list := if atEnd then lists[h] + [s] else [s] + lists[h];
    if atEnd {
      AppendLink(heads, h, links, s, lists[h]);
    } else {
      PrependLink(heads, h, links, s, lists[h]);
    }
    OthersLinked(old(heads[..]), heads[..], old(links[..]), links[..], lists, h, list);
  }

  method TakeOut(heads: array<int>, h: nat, links: array<int>, prev: int, s: nat, ghost lists: seq<seq<nat>>,
        ghost i: nat)
    requires heads != links && h < heads.Length
    requires AllLinked(heads[..], links[..], lists) && Apart(lists) && i < |lists[h]| && s == lists[h][i]
    requires prev == if i == 0 then NULL else lists[h][i - 1]
    modifies heads, links
    ensures AllLinked(heads[..], links[..], lists[h := Without(lists[h], i)])
  {
    hide Linked;
    Unlink(heads, h, links, prev, s, lists[h], i);
    OthersLinked(old(heads[..]), heads[..], old(links[..]), links[..], lists, h, Without(lists[h], i));
  }

  method FindAndTakeOut(heads: array<int>, h: nat, links: array<int>, s: nat, ghost lists: seq<seq<nat>>)
    requires heads != links && h < heads.Length
    requires AllLinked(heads[..], links[..], lists) && Apart(lists)
    modifies heads, links
    ensures AllLinked(heads[..], links[..], lists[h := Removed(lists[h], s)])
  {
    hide Linked;
    FindAndUnlink(heads, h, links, s, lists[h]);
    OthersLinked(old(heads[..]), heads[..], old(links[..]), links[..], lists, h, Removed(lists[h], s));
  }
}
