/** Stores of records keyed by an integer `Id`: the `find`/`findIndex` lookup,
    the `Math.max(...ids) + 1` allocation and the `splice` removal that all five
    repository services share. */
module Keyed {
  import opened Wrappers

  /** Array.prototype.findIndex(r => key(r) === id), with -1 as None. */
  function FindIndex<T>(s: seq<T>, key: T -> int, id: int): (r: Option<nat>)
    ensures r.Some? ==> r.value < |s| && key(s[r.value]) == id
    ensures r.Some? ==> forall j :: 0 <= j < r.value ==> key(s[j]) != id
    ensures r.None? <==> forall j :: 0 <= j < |s| ==> key(s[j]) != id
    decreases |s|
  {
    if s == [] then None
    else if key(s[0]) == id then Some(0)
    else match FindIndex(s[1..], key, id)
      case None => None
      case Some(i) => Some(i + 1)
  }

  ghost predicate HasKey<T>(s: seq<T>, key: T -> int, id: int) {
    exists j :: 0 <= j < |s| && key(s[j]) == id
  }

  ghost predicate UniqueKeys<T>(s: seq<T>, key: T -> int) {
    forall i, j :: 0 <= i < j < |s| ==> key(s[i]) != key(s[j])
  }

  /** Math.max(...s.map(key)) on a non-empty store. */
  function MaxKey<T>(s: seq<T>, key: T -> int): (m: int)
    requires |s| > 0
    ensures forall j :: 0 <= j < |s| ==> key(s[j]) <= m
    ensures HasKey(s, key, m)
    decreases |s|
  {
    if |s| == 1 then key(s[0])
    else
      var rest := MaxKey(s[1..], key);
      if key(s[0]) >= rest then key(s[0])
      else
        assert HasKey(s, key, rest) by {
          var j :| 0 <= j < |s[1..]| && key(s[1..][j]) == rest;
          assert key(s[j + 1]) == rest;
        }
        rest
  }

  /** The Id a service assigns on `create`: one more than the largest Id. */
  function NextKey<T>(s: seq<T>, key: T -> int): (id: int)
    requires |s| > 0
    ensures forall j :: 0 <= j < |s| ==> key(s[j]) < id
    ensures !HasKey(s, key, id)
  {
    MaxKey(s, key) + 1
  }

  /** Array.prototype.splice(i, 1): drop the element at `i`, keep the rest in order. */
  function RemoveAt<T>(s: seq<T>, i: nat): (r: seq<T>)
    requires i < |s|
    ensures |r| == |s| - 1
    ensures forall j :: 0 <= j < i ==> r[j] == s[j]
    ensures forall j :: i <= j < |r| ==> r[j] == s[j + 1]
  {
    s[..i] + s[i + 1..]
  }

  /** With unique keys, the lookup finds exactly the record holding the key. */
  lemma FindIndexUnique<T>(s: seq<T>, key: T -> int, i: nat)
    requires UniqueKeys(s, key) && i < |s|
    ensures FindIndex(s, key, key(s[i])) == Some(i)
  {
  }

  /** Appending a record whose key exceeds every key keeps keys unique. */
  lemma AppendKeepsUnique<T>(s: seq<T>, key: T -> int, x: T)
    requires UniqueKeys(s, key)
    requires forall j :: 0 <= j < |s| ==> key(s[j]) < key(x)
    ensures UniqueKeys(s + [x], key)
  {
  }

  /** Replacing a record by one with the same key keeps keys unique. */
  lemma ReplaceKeepsUnique<T>(s: seq<T>, key: T -> int, i: nat, x: T)
    requires UniqueKeys(s, key) && i < |s| && key(x) == key(s[i])
    ensures UniqueKeys(s[i := x], key)
  {
  }

  /** Removing a record keeps keys unique, and its key is then absent. */
  lemma RemoveKeepsUnique<T>(s: seq<T>, key: T -> int, i: nat)
    requires UniqueKeys(s, key) && i < |s|
    ensures UniqueKeys(RemoveAt(s, i), key)
    ensures FindIndex(RemoveAt(s, i), key, key(s[i])).None?
  {
    var r := RemoveAt(s, i);
    forall j | 0 <= j < |r|
      ensures key(r[j]) != key(s[i])
    {
      if j < i {
        assert r[j] == s[j];
      } else {
        assert r[j] == s[j + 1];
      }
    }
  }
}
