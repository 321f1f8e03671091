/**
 The list operations the pages perform on their arrays: appending a line,
 dropping a line by its position (`filter` on the index), and `find` by id.
 */
module Lists {
  import opened Values

  /** `[...s, x]`: the new element goes at the end and every earlier element keeps its place. */
  function Append<T>(s: seq<T>, x: T): (r: seq<T>)
    ensures |r| == |s| + 1
    ensures r[|s|] == x
    ensures forall k :: 0 <= k < |s| ==> r[k] == s[k]
  {
    s + [x]
  }

  /**
   `s.filter((_, k) => k !== i)`, written as the filter it is: it walks the list
   and keeps every element whose position differs from `i`. The contract
   characterises it by slicing: position `i` is cut out, or nothing changes
   when `i` is not a position of `s`.
   */
  function RemoveAt<T>(s: seq<T>, i: int): (r: seq<T>)
    ensures 0 <= i < |s| ==> r == s[..i] + s[i + 1..]
    ensures !(0 <= i < |s|) ==> r == s
    decreases |s|
  {
    if |s| == 0 then []
    else
      var init := s[..|s| - 1];
      var rest := RemoveAt(init, i);
      if i == |s| - 1 then
        assert rest == init;
        rest
      else
        assert 0 <= i < |init| ==> s[i + 1..] == init[i + 1..] + [s[|s| - 1]];
        assert init + [s[|s| - 1]] == s;
        rest + [s[|s| - 1]]
  }

  /** Removing a position shrinks the list by one and shifts the later elements down by one. */
  lemma RemoveAtShifts<T>(s: seq<T>, i: int)
    requires 0 <= i < |s|
    ensures |RemoveAt(s, i)| == |s| - 1
    ensures forall k :: 0 <= k < i ==> RemoveAt(s, i)[k] == s[k]
    ensures forall k :: i <= k < |s| - 1 ==> RemoveAt(s, i)[k] == s[k + 1]
  {
  }

  /** Removing the last position undoes an append. */
  lemma RemoveAfterAppend<T>(s: seq<T>, x: T)
    ensures RemoveAt(Append(s, x), |s|) == s
  {
    assert Append(s, x)[..|s|] == s;
  }

  /**
   `s.find(x => key(x) === id)`, reported as the position of the FIRST element
   whose key is `id`, or nothing when no element has that key.
   */
  function FindFirst<T>(s: seq<T>, key: T -> string, id: string): (r: Option<nat>)
    ensures r.Some? ==> r.value < |s| && key(s[r.value]) == id
    ensures r.Some? ==> forall j :: 0 <= j < r.value ==> key(s[j]) != id
    ensures r.None? <==> forall j :: 0 <= j < |s| ==> key(s[j]) != id
    decreases |s|
  {
    if |s| == 0 then None
    else if key(s[0]) == id then Some(0)
    else
      match FindFirst(s[1..], key, id)
      case None => None
      case Some(k) => Some(k + 1)
  }

  /** The element `find` returns, if any. */
  function Find<T>(s: seq<T>, key: T -> string, id: string): (r: Option<T>)
    ensures r.None? <==> forall j :: 0 <= j < |s| ==> key(s[j]) != id
    ensures r.Some? ==> r.value in s && key(r.value) == id
    ensures r.Some? ==>
      exists k :: 0 <= k < |s| && s[k] == r.value && key(s[k]) == id && forall j :: 0 <= j < k ==> key(s[j]) != id
  {
    match FindFirst(s, key, id)
    case None => None
    case Some(k) => Some(s[k])
  }

  /** When keys are unique, `find` returns the one element that carries the key. */
  lemma FindUnique<T>(s: seq<T>, key: T -> string, k: nat)
    requires k < |s|
    requires forall a, b :: 0 <= a < b < |s| ==> key(s[a]) != key(s[b])
    ensures Find(s, key, key(s[k])) == Some(s[k])
  {
    var r := FindFirst(s, key, key(s[k]));
    assert r.Some?;
  }
}
