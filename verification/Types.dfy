/** Vocabulary shared by every module: identifiers, task parameters and options. */
module Types {

  /** A Rust u8. */
  type Byte = x: int | 0 <= x < 256

  /** The UTF-8 bytes of a peer id or of a task id; neither is ever empty. */
  type Id = s: seq<Byte> | s != [] witness [0]

  datatype Option<+T> = None | Some(value: T)

  /** The parameters of a task: n key slices, any k of which recover the key. */
  datatype ExecInfo = ExecInfo(n: Byte, k: Byte, taskType: string)

  datatype TaskInfo = TaskInfo(taskId: Id, exec: ExecInfo)

  function Reversed<T>(s: seq<T>): (r: seq<T>)
    ensures |r| == |s|
    ensures forall i :: 0 <= i < |s| ==> r[i] == s[|s| - 1 - i]
  {
    seq(|s|, i requires 0 <= i < |s| => s[|s| - 1 - i])
  }

  ghost predicate Distinct<T>(s: seq<T>) {
    forall i, j :: 0 <= i < j < |s| ==> s[i] != s[j]
  }

  function Elements<T(!new)>(s: seq<T>): (r: set<T>)
    ensures forall x :: x in r <==> x in s
  {
    set x | x in s
  }

  /** One possible order in which a hash map with these keys is walked. */
  ghost predicate IsOrderOf<T(!new)>(order: seq<T>, keys: set<T>) {
    && Distinct(order)
    && Elements(order) == keys
  }

  lemma {:induction false} DistinctCount<T(!new)>(s: seq<T>)
    requires Distinct(s)
    ensures |Elements(s)| == |s|
  {
    if s != [] {
      var rest := s[..|s| - 1];
      DistinctCount(rest);
      assert s == rest + [s[|s| - 1]];
      assert Elements(s) == Elements(rest) + {s[|s| - 1]};
    }
  }

  /** Every set of keys can be walked. */
  lemma {:induction false} OrderExists<T(!new)>(keys: set<T>) returns (order: seq<T>)
    ensures IsOrderOf(order, keys)
  {
    if keys == {} {
      order := [];
    } else {
      var x :| x in keys;
      var rest := OrderExists(keys - {x});
      assert x !in Elements(rest);
      order := rest + [x];
      assert Elements(order) == Elements(rest) + {x};
    }
  }

  lemma {:induction false} SubsetSize<T>(a: set<T>, b: set<T>)
    requires a <= b
    ensures |a| <= |b|
  {
    if a != {} {
      var x :| x in a;
      SubsetSize(a - {x}, b - {x});
    }
  }

  lemma HeadIn<T>(s: seq<T>)
    requires s != []
    ensures s[0] in s
  {
  }

  ghost predicate Once<T>(m: multiset<T>) {
    forall x :: x in m ==> m[x] == 1
  }

  lemma {:induction false} DistinctIsOnce<T>(s: seq<T>)
    ensures Distinct(s) <==> Once(multiset(s))
  {
    if s != [] {
      var init, last := s[..|s| - 1], s[|s| - 1];
      assert s == init + [last];
      DistinctIsOnce(init);
      if Distinct(s) {
        assert last !in init;
        forall x | x in multiset(s) ensures multiset(s)[x] == 1 {
          assert multiset(s)[x] == multiset(init)[x] + if x == last then 1 else 0;
        }
      }
      if Once(multiset(s)) {
        forall x | x in multiset(init) ensures multiset(init)[x] == 1 { assert x in multiset(s); }
        assert multiset(s)[last] == multiset(init)[last] + 1;
        assert last !in multiset(init);
      }
    }
  }
}
