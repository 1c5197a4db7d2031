/** Ordering the inbox newest first, as the fetched list is sorted in place. */
module NewestFirst {
  import opened MailTypes

  /** The sort comparator: negative when `a` goes before `b`, that is when `a` is newer. */
  function Compare(a: Message, b: Message): (r: int)
    ensures r < 0 <==> a.createdAt > b.createdAt
    ensures r == 0 <==> a.createdAt == b.createdAt
  {
    b.createdAt - a.createdAt
  }

  /** Creation times never increase along the sequence. */
  predicate IsNewestFirst(s: seq<Message>) {
    forall i, j :: 0 <= i < j < |s| ==> s[i].createdAt >= s[j].createdAt
  }

  /** Exchanges two adjacent entries. */
  method SwapDown(a: array<Message>, j: int)
    requires 0 < j < a.Length
    modifies a
    ensures a[j - 1] == old(a[j]) && a[j] == old(a[j - 1])
    ensures forall k :: 0 <= k < a.Length && k != j - 1 && k != j ==> a[k] == old(a[k])
    ensures multiset(a[..]) == multiset(old(a[..]))
  {
    a[j - 1], a[j] := a[j], a[j - 1];
  }

  /** Sorts `a` in place so that no message comes before a newer one. */
  method Sort(a: array<Message>)
    modifies a
    ensures IsNewestFirst(a[..])
    ensures multiset(a[..]) == multiset(old(a[..]))
  {
    var i := 0;
    while i < a.Length
      invariant 0 <= i <= a.Length
      invariant forall k, l :: 0 <= k < l < i ==> a[k].createdAt >= a[l].createdAt
      invariant multiset(a[..]) == multiset(old(a[..]))
    {
      var j := i;
      while j > 0 && Compare(a[j - 1], a[j]) > 0
        invariant 0 <= j <= i
        invariant forall k, l :: 0 <= k < l <= i && k != j && l != j ==> a[k].createdAt >= a[l].createdAt
        invariant forall l :: j < l <= i ==> a[j].createdAt > a[l].createdAt
        invariant multiset(a[..]) == multiset(old(a[..]))
      {
        SwapDown(a, j);
        j := j - 1;
      }
      i := i + 1;
    }
  }
}
