/**
 The intrusive lists of libisix/include/isix/prv/list.h, seen as sequences of
 element identifiers.  An element is on a list at most once.
 */
module Lists {

  predicate NoDup<T(==)>(s: seq<T>) {
    forall i, j | 0 <= i < j < |s| :: s[i] != s[j]
  }

  // list_delete: take the element out, keep the order of the others.
  function Remove<T(==)>(s: seq<T>, x: T): (r: seq<T>) {
    if s == [] then [] else if s[0] == x then s[1..] else [s[0]] + Remove(s[1..], x)
  }

  // list_insert_before: x becomes the element at position i.
  function Insert<T>(s: seq<T>, i: nat, x: T): (r: seq<T>)
    requires i <= |s|
    ensures |r| == |s| + 1 && r[i] == x
    ensures forall j | 0 <= j < i :: r[j] == s[j]
    ensures forall j | i <= j < |s| :: r[j + 1] == s[j]
  {
    s[..i] + [x] + s[i..]
  }

  // list_insert_first links the element after the current first one
  // (prv/list.h:62-65), so it only becomes the head of an empty list.
  function InsertFirst<T>(s: seq<T>, x: T): (r: seq<T>) {
    if s == [] then [x] else Insert(s, 1, x)
  }

  lemma {:induction false} RemoveAt<T>(s: seq<T>, x: T) returns (i: nat)
    requires x in s
    ensures i < |s| && s[i] == x
    ensures Remove(s, x) == s[..i] + s[i + 1..]
    ensures x !in s[..i]
  {
    if s[0] == x {
      i := 0;
    } else {
      var j := RemoveAt(s[1..], x);
      i := j + 1;
      assert s[1..][..j] == s[1..i] && s[1..][j + 1..] == s[i + 1..];
      assert [s[0]] + (s[1..i] + s[i + 1..]) == s[..i] + s[i + 1..];
    }
  }

  lemma {:induction false} RemoveNone<T>(s: seq<T>, x: T)
    requires x !in s
    ensures Remove(s, x) == s
  {
    if s != [] { RemoveNone(s[1..], x); }
  }

  // What removal does to a list without repetitions.
  lemma RemoveFacts<T>(s: seq<T>, x: T)
    requires NoDup(s)
    ensures NoDup(Remove(s, x))
    ensures forall y :: y in Remove(s, x) <==> y in s && y != x
    ensures |Remove(s, x)| == if x in s then |s| - 1 else |s|
  {
    if x in s {
      var i := RemoveAt(s, x);
      var r := Remove(s, x);
      forall y ensures y in r <==> y in s && y != x {
        if y in s && y != x {
          var j :| 0 <= j < |s| && s[j] == y;
          assert r[if j < i then j else j - 1] == y;
        }
      }
    } else {
      RemoveNone(s, x);
    }
  }

  lemma InsertFacts<T>(s: seq<T>, i: nat, x: T)
    requires i <= |s|
    ensures forall y :: y in Insert(s, i, x) <==> y == x || y in s
    ensures NoDup(s) && x !in s ==> NoDup(Insert(s, i, x))
  {
    var r := Insert(s, i, x);
    forall y ensures y in r <==> y == x || y in s {
      if y == x {
        assert r[i] == y;
      } else if y in s {
        var j :| 0 <= j < |s| && s[j] == y;
        assert r[if j < i then j else j + 1] == y;
      }
    }
  }

  lemma InsertFirstFacts<T>(s: seq<T>, x: T)
    ensures forall y :: y in InsertFirst(s, x) <==> y == x || y in s
    ensures NoDup(s) && x !in s ==> NoDup(InsertFirst(s, x))
  {
    if s != [] { InsertFacts(s, 1, x); }
  }

  // Taking out the element just inserted gives the list back.
  lemma RemoveInsert<T>(s: seq<T>, i: nat, x: T)
    requires i <= |s| && x !in s
    ensures Remove(Insert(s, i, x), x) == s
  {
    var r := Insert(s, i, x);
    var j := RemoveAt(r, x);
  }
}
