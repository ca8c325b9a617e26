/** The todo list of the advanced demo page as a value: a sequence of records,
    with the `map` of toggleTodo and the `filter` of deleteTodo as functions. */
module TodoList {

  /** One todo item. The id is the creation time in milliseconds. */
  datatype Todo = Todo(id: int, text: string, completed: bool)

  /** No two items share an id. The page assumes this but does not enforce it. */
  predicate UniqueIds(s: seq<Todo>) {
    forall i, j :: 0 <= i < j < |s| ==> s[i].id != s[j].id
  }

  /** No item has the id `id`. */
  predicate Absent(s: seq<Todo>, id: int) {
    forall t :: t in s ==> t.id != id
  }

  /** toggleTodo's list: the same items in the same order with the same ids and
      texts, `completed` flipped on exactly the items whose id is `id`. */
  function Toggled(s: seq<Todo>, id: int): (r: seq<Todo>)
    ensures |r| == |s|
    ensures forall i :: 0 <= i < |s| ==> r[i].id == s[i].id && r[i].text == s[i].text
    ensures forall i :: 0 <= i < |s| ==>
      r[i].completed == (if s[i].id == id then !s[i].completed else s[i].completed)
  {
    if s == [] then []
    else [if s[0].id == id then s[0].(completed := !s[0].completed) else s[0]] + Toggled(s[1..], id)
  }

  /** deleteTodo's list: the items whose id differs from `id`, in their original order. */
  function Deleted(s: seq<Todo>, id: int): (r: seq<Todo>)
    ensures |r| <= |s|
    ensures forall i :: 0 <= i < |r| ==> r[i].id != id
  {
    if s == [] then []
    else (if s[0].id != id then [s[0]] else []) + Deleted(s[1..], id)
  }

  /** An item survives deleteTodo exactly when it was in the list with another id. */
  lemma {:induction false} DeletedMembers(s: seq<Todo>, id: int)
    ensures forall t :: t in Deleted(s, id) <==> t in s && t.id != id
  {
    if s != [] {
      DeletedMembers(s[1..], id);
      assert s == [s[0]] + s[1..];
    }
  }

  /** Toggling the same id twice gives back the original list. */
  lemma ToggledTwice(s: seq<Todo>, id: int)
    ensures Toggled(Toggled(s, id), id) == s
  {
  }

  /** Toggling an id no item has changes nothing. */
  lemma ToggledAbsent(s: seq<Todo>, id: int)
    requires Absent(s, id)
    ensures Toggled(s, id) == s
  {
  }

  /** With unique ids, toggling the id of item k flips that one item and no other. */
  lemma ToggledOne(s: seq<Todo>, k: nat)
    requires UniqueIds(s) && k < |s|
    ensures Toggled(s, s[k].id) == s[k := s[k].(completed := !s[k].completed)]
  {
  }

  /** Toggling keeps ids where they were, so it keeps them unique. */
  lemma ToggledKeepsUnique(s: seq<Todo>, id: int)
    requires UniqueIds(s)
    ensures UniqueIds(Toggled(s, id))
  {
  }

  /** Deleting distributes over concatenation: the filter never reorders items. */
  lemma {:induction false} DeletedAppend(a: seq<Todo>, b: seq<Todo>, id: int)
    ensures Deleted(a + b, id) == Deleted(a, id) + Deleted(b, id)
  {
    if a == [] {
      assert a + b == b;
    } else {
      assert (a + b)[1..] == a[1..] + b;
      DeletedAppend(a[1..], b, id);
    }
  }

  /** Deleting an id no item has changes nothing. */
  lemma {:induction false} DeletedAbsent(s: seq<Todo>, id: int)
    requires Absent(s, id)
    ensures Deleted(s, id) == s
  {
    if s != [] {
      assert s[0] in s;
      DeletedAbsent(s[1..], id);
    }
  }

  /** With unique ids, deleting the id of item k removes exactly that item and
      keeps the others in order. */
  lemma DeletedOne(s: seq<Todo>, k: nat)
    requires UniqueIds(s) && k < |s|
    ensures Deleted(s, s[k].id) == s[..k] + s[k + 1..]
    ensures |Deleted(s, s[k].id)| == |s| - 1
  {
    UniqueOthersAbsent(s, k);
    DeletedSplit(s[..k], s[k], s[k + 1..]);
    assert s[..k] + [s[k]] + s[k + 1..] == s;
  }

  /** Deleting the id of an item that no item before or after it shares
      removes that item and nothing else. */
  lemma DeletedSplit(a: seq<Todo>, x: Todo, b: seq<Todo>)
    requires Absent(a, x.id) && Absent(b, x.id)
    ensures Deleted(a + [x] + b, x.id) == a + b
  {
    DeletedAbsent(a, x.id);
    DeletedAbsent(b, x.id);
    assert Deleted([x], x.id) == [] by { assert [x][1..] == []; }
    calc {
      Deleted(a + [x] + b, x.id);
      { DeletedAppend(a + [x], b, x.id); }
      Deleted(a + [x], x.id) + Deleted(b, x.id);
      { DeletedAppend(a, [x], x.id); }
      Deleted(a, x.id) + Deleted([x], x.id) + Deleted(b, x.id);
      a + [] + b;
      { assert a + [] == a; }
      a + b;
    }
  }

  /** With unique ids, no item before or after item k has its id. */
  lemma UniqueOthersAbsent(s: seq<Todo>, k: nat)
    requires UniqueIds(s) && k < |s|
    ensures Absent(s[..k], s[k].id) && Absent(s[k + 1..], s[k].id)
  {
  }

  /** Deleting keeps ids unique. */
  lemma {:induction false} DeletedKeepsUnique(s: seq<Todo>, id: int)
    requires UniqueIds(s)
    ensures UniqueIds(Deleted(s, id))
  {
    if s != [] {
      DeletedKeepsUnique(s[1..], id);
      DeletedMembers(s[1..], id);
      var rest := Deleted(s[1..], id);
      assert Absent(rest, s[0].id) by {
        forall t | t in rest ensures t.id != s[0].id {
          var i :| 0 <= i < |s[1..]| && s[1..][i] == t;
          assert s[i + 1] == t;
        }
      }
      if s[0].id != id {
        var r := [s[0]] + rest;
        forall i, j | 0 <= i < j < |r| ensures r[i].id != r[j].id {
          if i == 0 { assert r[j] in rest; }
        }
      }
    }
  }

  /** Appending an item whose id is fresh keeps ids unique. */
  lemma AppendedKeepsUnique(s: seq<Todo>, item: Todo)
    requires UniqueIds(s) && Absent(s, item.id)
    ensures UniqueIds(s + [item])
  {
  }
}
