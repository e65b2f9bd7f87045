/** Reference-counted buffers (`mem/buffers.go`).  A root buffer owns a pooled byte slice; slicing and
    splitting create views that share it.  Buffer objects are recycled, so a view may get the identity of
    an object freed before.  A slice taken from a pool is named by a lease number, new each time. */
module Buffers {

  import opened Wrappers
  import opened ByteOrder

  /** Sizes up to this are not pooled. */
  const POOLING_THRESHOLD := 1024

  /** A buffer object.  `root` is nil (`None`) once the object has been freed; the view covers `len` bytes
      of the lease `slice`, from `off`. */
  datatype Buf = Buf(refs: int, root: Option<nat>, slice: nat, off: nat, len: nat)

  /** Buffer objects by identity. */
  type Bufs = map<nat, Buf>

  /** The bytes of every lease, up to its capacity. */
  type Memory = map<nat, Bytes>

  /** How many references to each object its users hold. */
  type Handles = multiset<nat>

  predicate Live(bufs: Bufs, b: nat) {
    b in bufs && bufs[b].root.Some?
  }

  /** The other live buffers whose root is `b`. */
  ghost function Views(bufs: Bufs, b: nat): set<nat> {
    set v | v in bufs && v != b && bufs[v].root == Some(b)
  }

  function Count(handles: Handles, b: nat): nat {
    handles[b]
  }

  /** Some live buffer covers the lease. */
  ghost predicate Owned(bufs: Bufs, s: nat) {
    exists b :: Live(bufs, b) && bufs[b].slice == s
  }

  // ---------------------------------------------------------------- the invariant

  /** A live buffer's count is the number of references its users hold plus the number of live views of
      it; a freed one has neither. */
  ghost predicate CountOK(bufs: Bufs, handles: Handles, b: nat) {
    if Live(bufs, b) then bufs[b].refs == Count(handles, b) + |Views(bufs, b)| && bufs[b].refs > 0
    else Count(handles, b) == 0 && (b in bufs ==> bufs[b].refs == 0)
  }

  ghost predicate Counts(bufs: Bufs, handles: Handles) {
    forall b: nat :: CountOK(bufs, handles, b)
  }

  /** A live buffer's root is live, its own root, and owns the lease; the view lies inside the slice,
      which has not gone back to the pool. */
  ghost predicate ShapeOK(bufs: Bufs, mem: Memory, puts: seq<nat>, b: nat) {
    Live(bufs, b) ==>
      var r := bufs[b].root.value;
      && Live(bufs, r) && bufs[r].root == Some(r) && bufs[r].slice == bufs[b].slice
      && bufs[b].slice in mem && bufs[b].off + bufs[b].len <= |mem[bufs[b].slice]|
      && bufs[b].slice !in puts
  }

  ghost predicate Shapes(bufs: Bufs, mem: Memory, puts: seq<nat>) {
    && (forall b: nat :: ShapeOK(bufs, mem, puts, b))
    && (forall b, c :: Live(bufs, b) && Live(bufs, c) && bufs[b].slice == bufs[c].slice ==>
          bufs[b].root == bufs[c].root)
  }

  /** Every lease is with the pool, returned once, or covered by a live buffer. */
  ghost predicate Returned(bufs: Bufs, mem: Memory, puts: seq<nat>) {
    && (forall i, j :: 0 <= i < j < |puts| ==> puts[i] != puts[j])
    && (forall s :: s in mem ==> s in puts || Owned(bufs, s))
    && (forall i :: 0 <= i < |puts| ==> puts[i] in mem)
  }

  ghost predicate Inv(bufs: Bufs, handles: Handles, mem: Memory, puts: seq<nat>) {
    Counts(bufs, handles) && Shapes(bufs, mem, puts) && Returned(bufs, mem, puts)
  }

  /** A live buffer has a user, or is a root with a view that has one. */
  lemma LiveIsHeld(bufs: Bufs, handles: Handles, mem: Memory, puts: seq<nat>, b: nat)
    requires Inv(bufs, handles, mem, puts) && Live(bufs, b)
    ensures exists v :: Live(bufs, v) && Count(handles, v) > 0 && bufs[v].slice == bufs[b].slice
  {
    assert CountOK(bufs, handles, b) && ShapeOK(bufs, mem, puts, b);
    if Count(handles, b) == 0 {
      var v :| v in Views(bufs, b);
      assert ShapeOK(bufs, mem, puts, v) && CountOK(bufs, handles, v);
      assert Views(bufs, v) == {} by {
        forall w | w in bufs
          ensures bufs[w].root != Some(v)
        {
          assert ShapeOK(bufs, mem, puts, w);
        }
      }
    }
  }

  /** A lease is back in its pool exactly when nobody holds a reference to a buffer that covers it. */
  lemma ReturnedIffUnheld(bufs: Bufs, handles: Handles, mem: Memory, puts: seq<nat>, s: nat)
    requires Inv(bufs, handles, mem, puts) && s in mem
    ensures s in puts <==> !exists v :: Live(bufs, v) && Count(handles, v) > 0 && bufs[v].slice == s
  {
    if s !in puts {
      var b :| Live(bufs, b) && bufs[b].slice == s;
      LiveIsHeld(bufs, handles, mem, puts, b);
    } else if v :| Live(bufs, v) && bufs[v].slice == s {
      assert ShapeOK(bufs, mem, puts, v);
    }
  }

  // ---------------------------------------------------------------- one buffer changes

  /** A new count, offset or length for `b`. */
  lemma UpdateKeeps(bufs: Bufs, handles: Handles, mem: Memory, puts: seq<nat>, b: nat, x: Buf, n: nat)
    requires Inv(bufs, handles, mem, puts) && Live(bufs, b)
    requires x.root == bufs[b].root && x.slice == bufs[b].slice && x.slice in mem && x.off + x.len <= |mem[x.slice]|
    requires x.refs - n == bufs[b].refs - Count(handles, b) && x.refs > 0
    ensures Inv(bufs[b := x], handles[b := n], mem, puts)
  {
    UpdateCounts(bufs, handles, b, x, n);
    UpdateShapes(bufs, mem, puts, b, x);
  }

  lemma UpdateCounts(bufs: Bufs, handles: Handles, b: nat, x: Buf, n: nat)
    requires Counts(bufs, handles) && Live(bufs, b) && x.root == bufs[b].root
    requires x.refs - n == bufs[b].refs - Count(handles, b) && x.refs > 0
    ensures Counts(bufs[b := x], handles[b := n])
  {
    forall c: nat {:trigger CountOK(bufs[b := x], handles[b := n], c)}
      ensures CountOK(bufs[b := x], handles[b := n], c)
    {
      assert CountOK(bufs, handles, c);
      assert Views(bufs[b := x], c) == Views(bufs, c);
    }
  }

  lemma UpdateShapes(bufs: Bufs, mem: Memory, puts: seq<nat>, b: nat, x: Buf)
    requires Shapes(bufs, mem, puts) && Returned(bufs, mem, puts) && Live(bufs, b)
    requires x.root == bufs[b].root && x.slice == bufs[b].slice && x.slice in mem && x.off + x.len <= |mem[x.slice]|
    ensures Shapes(bufs[b := x], mem, puts) && Returned(bufs[b := x], mem, puts)
  {
    forall c: nat {:trigger ShapeOK(bufs[b := x], mem, puts, c)}
      ensures ShapeOK(bufs[b := x], mem, puts, c)
    {
      assert ShapeOK(bufs, mem, puts, c);
    }
    forall s | s in mem && s !in puts
      ensures Owned(bufs[b := x], s)
    {
      var c :| Live(bufs, c) && bufs[c].slice == s;
      assert Live(bufs[b := x], c);
    }
  }

  // ---------------------------------------------------------------- a view appears

  /** A new root `r` over a new lease. */
  lemma NewRootKeeps(bufs: Bufs, handles: Handles, mem: Memory, puts: seq<nat>, r: nat, s: nat, data: Bytes, len: nat)
    requires Inv(bufs, handles, mem, puts) && !Live(bufs, r) && s !in mem && len <= |data|
    ensures Inv(bufs[r := Buf(1, Some(r), s, 0, len)], handles[r := 1], mem[s := data], puts)
  {
    var x := Buf(1, Some(r), s, 0, len);
    NoViewsOfDead(bufs, mem, puts, r);
    NewViewCounts(bufs, handles, r, x);
    forall c | Live(bufs, c)
      ensures bufs[c].slice != s
    {
      assert ShapeOK(bufs, mem, puts, c);
    }
    forall c: nat {:trigger ShapeOK(bufs[r := x], mem[s := data], puts, c)}
      ensures ShapeOK(bufs[r := x], mem[s := data], puts, c)
    {
      assert ShapeOK(bufs, mem, puts, c);
    }
    OwnedGrows(bufs, r, x);
    assert Live(bufs[r := x], r);
  }

  /** A new view `v` with one reference; its root gains one. */
  lemma NewViewKeeps(bufs: Bufs, handles: Handles, mem: Memory, puts: seq<nat>, r: nat, v: nat, x: Buf)
    requires Inv(bufs, handles, mem, puts) && Live(bufs, r) && bufs[r].root == Some(r) && !Live(bufs, v)
    requires x.root == Some(r) && x.refs == 1 && x.slice == bufs[r].slice
    requires x.slice in mem && x.off + x.len <= |mem[x.slice]|
    ensures Inv(bufs[r := bufs[r].(refs := bufs[r].refs + 1)][v := x], handles[v := 1], mem, puts)
  {
    var y := bufs[r].(refs := bufs[r].refs + 1);
    var bufs' := bufs[r := y];
    NoViewsOfDead(bufs, mem, puts, v);
    NewViewCounts(bufs, handles, v, x);
    assert bufs[v := x][r := y] == bufs'[v := x];
    assert ShapeOK(bufs, mem, puts, r);
    UpdateShapes(bufs, mem, puts, r, y);
    forall c: nat {:trigger ShapeOK(bufs'[v := x], mem, puts, c)}
      ensures ShapeOK(bufs'[v := x], mem, puts, c)
    {
      assert ShapeOK(bufs', mem, puts, c) && ShapeOK(bufs', mem, puts, r);
    }
    OwnedGrows(bufs', v, x);
  }

  lemma NoViewsOfDead(bufs: Bufs, mem: Memory, puts: seq<nat>, v: nat)
    requires Shapes(bufs, mem, puts) && !Live(bufs, v)
    ensures Views(bufs, v) == {}
  {
    forall w | w in bufs
      ensures bufs[w].root != Some(v)
    {
      assert ShapeOK(bufs, mem, puts, w);
    }
  }

  lemma NewViewCounts(bufs: Bufs, handles: Handles, v: nat, x: Buf)
    requires Counts(bufs, handles) && !Live(bufs, v) && Views(bufs, v) == {} && x.root.Some? && x.refs == 1
    requires x.root.value != v ==> Live(bufs, x.root.value)
    ensures var r := x.root.value;
            Counts(if r == v then bufs[v := x] else bufs[v := x][r := bufs[r].(refs := bufs[r].refs + 1)],
                handles[v := 1])
  {
    var r := x.root.value;
    var bufs' := if r == v then bufs[v := x] else bufs[v := x][r := bufs[r].(refs := bufs[r].refs + 1)];
    forall c: nat {:trigger CountOK(bufs', handles[v := 1], c)}
      ensures CountOK(bufs', handles[v := 1], c)
    {
      assert CountOK(bufs, handles, c);
      if c == r && r != v {
        assert Views(bufs', c) == Views(bufs, c) + {v};
      } else {
        assert Views(bufs', c) == Views(bufs, c);
      }
    }
  }

  lemma OwnedGrows(bufs: Bufs, v: nat, x: Buf)
    requires !Live(bufs, v)
    ensures forall s :: Owned(bufs, s) ==> Owned(bufs[v := x], s)
  {
    forall s | Owned(bufs, s)
      ensures Owned(bufs[v := x], s)
    {
      var c :| Live(bufs, c) && bufs[c].slice == s;
      assert Live(bufs[v := x], c);
    }
  }

  // ---------------------------------------------------------------- a view disappears

  ghost predicate Dead(x: Buf) {
    x.root.None? && x.refs == 0
  }

  /** The last reference to a view goes, and with it its entry in the count of the root, which has others. */
  lemma DropViewKeeps(bufs: Bufs, handles: Handles, mem: Memory, puts: seq<nat>, b: nat, x: Buf)
    requires Inv(bufs, handles, mem, puts) && Live(bufs, b) && bufs[b].refs == 1 && Count(handles, b) == 1 && Dead(x)
    requires var r := bufs[b].root.value; r != b && r in bufs && bufs[r].refs > 1
    ensures var r := bufs[b].root.value;
            Inv(bufs[b := x][r := bufs[r].(refs := bufs[r].refs - 1)], handles[b := 0], mem, puts)
  {
    var r: nat := bufs[b].root.value;
    var y := bufs[r].(refs := bufs[r].refs - 1);
    var bufs' := bufs[b := x][r := y];
    assert ShapeOK(bufs, mem, puts, b);
    DropCounts(bufs, handles, b, x, y);
    DropShapes(bufs, mem, puts, b, x, y);
  }

  lemma DropCounts(bufs: Bufs, handles: Handles, b: nat, x: Buf, y: Buf)
    requires Counts(bufs, handles) && Live(bufs, b) && bufs[b].refs == 1 && Count(handles, b) == 1 && Dead(x)
    requires var r := bufs[b].root.value;
             && r != b && Live(bufs, r) && y.refs == bufs[r].refs - 1 && bufs[r].root == Some(r)
             && (if y.refs > 0 then y.root == bufs[r].root else y.root.None?)
    ensures Counts(bufs[b := x][bufs[b].root.value := y], handles[b := 0])
    ensures y.refs == 0 ==> forall c :: Live(bufs, c) && bufs[c].root == bufs[b].root ==>
              c == b || c == bufs[b].root.value
  {
    var r: nat := bufs[b].root.value;
    var bufs' := bufs[b := x][r := y];
    assert CountOK(bufs, handles, r) && b in Views(bufs, r);
    if y.refs == 0 { Singleton(Views(bufs, r), b); }
    forall c: nat {:trigger CountOK(bufs', handles[b := 0], c)}
      ensures CountOK(bufs', handles[b := 0], c)
    {
      assert CountOK(bufs, handles, c);
      assert c != r ==> Views(bufs', c) == Views(bufs, c);
      assert c == r && y.refs > 0 ==> Views(bufs', c) == Views(bufs, c) - {b};
    }
    forall c | y.refs == 0 && Live(bufs, c) && bufs[c].root == bufs[b].root
      ensures c == b || c == r
    {
      assert c == r || c in Views(bufs, r);
    }
  }

  lemma DropShapes(bufs: Bufs, mem: Memory, puts: seq<nat>, b: nat, x: Buf, y: Buf)
    requires Shapes(bufs, mem, puts) && Returned(bufs, mem, puts) && Live(bufs, b) && Dead(x)
    requires var r := bufs[b].root.value; r != b && r in bufs && y == bufs[r].(refs := y.refs)
    ensures var r := bufs[b].root.value;
            Shapes(bufs[b := x][r := y], mem, puts) && Returned(bufs[b := x][r := y], mem, puts)
  {
    var r: nat := bufs[b].root.value;
    var bufs' := bufs[b := x][r := y];
    assert ShapeOK(bufs, mem, puts, b);
    forall c: nat {:trigger ShapeOK(bufs', mem, puts, c)}
      ensures ShapeOK(bufs', mem, puts, c)
    {
      assert ShapeOK(bufs, mem, puts, c);
    }
    forall s | s in mem && s !in puts
      ensures Owned(bufs', s)
    {
      var c :| Live(bufs, c) && bufs[c].slice == s;
      assert Live(bufs', if c == b then r else c);
    }
  }

  /** The last live buffer of a lease is a root; it goes and the slice is put back. */
  lemma DropRootShapes(bufs: Bufs, mem: Memory, puts: seq<nat>, r: nat, x: Buf)
    requires Shapes(bufs, mem, puts) && Returned(bufs, mem, puts) && Live(bufs, r) && x.root.None?
    requires forall c :: Live(bufs, c) && bufs[c].root == Some(r) ==> c == r
    requires bufs[r].root == Some(r)
    ensures Shapes(bufs[r := x], mem, puts + [bufs[r].slice]) && Returned(bufs[r := x], mem, puts + [bufs[r].slice])
  {
    var puts' := puts + [bufs[r].slice];
    forall c: nat {:trigger ShapeOK(bufs[r := x], mem, puts', c)}
      ensures ShapeOK(bufs[r := x], mem, puts', c)
    {
      assert ShapeOK(bufs, mem, puts, c) && ShapeOK(bufs, mem, puts, r);
    }
    assert ShapeOK(bufs, mem, puts, r);
    forall s | s in mem && s !in puts'
      ensures Owned(bufs[r := x], s)
    {
      var c :| Live(bufs, c) && bufs[c].slice == s;
      assert Live(bufs[r := x], c);
    }
  }

  lemma Singleton(s: set<nat>, x: nat)
    requires x in s && |s| == 1
    ensures s == {x}
  {
    assert |s - {x}| == 0;
  }

  /** A root without views or other references goes. */
  lemma DropRootCounts(bufs: Bufs, handles: Handles, b: nat, x: Buf)
    requires Counts(bufs, handles) && Live(bufs, b) && bufs[b].root == Some(b) && bufs[b].refs == 1 &&
               Count(handles, b) == 1
    requires Dead(x)
    ensures Counts(bufs[b := x], handles[b := 0])
    ensures forall c :: Live(bufs, c) && bufs[c].root == Some(b) ==> c == b
  {
    assert CountOK(bufs, handles, b) && Views(bufs, b) == {};
    forall c | Live(bufs, c) && bufs[c].root == Some(b)
      ensures c == b
    {
      assert c == b || c in Views(bufs, b);
    }
    forall c: nat {:trigger CountOK(bufs[b := x], handles[b := 0], c)}
      ensures CountOK(bufs[b := x], handles[b := 0], c)
    {
      assert CountOK(bufs, handles, c);
      assert Views(bufs[b := x], c) == Views(bufs, c);
    }
  }

  // ---------------------------------------------------------------- freeing

  /** The object can be freed: its root is its own root. */
  predicate Rooted(bufs: Bufs, b: nat) {
    && Live(bufs, b)
    && Live(bufs, bufs[b].root.value)
    && bufs[bufs[b].root.value].root == bufs[b].root
  }

  /** What releasing one reference does to the objects and to the pool. */
  function Drop(bufs: Bufs, puts: seq<nat>, b: nat): (r: (Bufs, seq<nat>))
    requires Rooted(bufs, b)
    ensures b in r.0 && forall c :: c in bufs && c != b && Some(c) != bufs[b].root ==> c in r.0 && r.0[c] == bufs[c]
    decreases if bufs[b].root == Some(b) then 0 else 1
  {
    var x := bufs[b];
    if x.refs != 1 then (bufs[b := x.(refs := x.refs - 1)], puts)
    else if x.root == Some(b) then (bufs[b := Freed(x)], puts + [x.slice])
    else
      var (bufs', puts') := Drop(bufs[b := x.(refs := 0, len := 0)], puts, x.root.value);
      (bufs'[b := Freed(x)], puts')
  }

  /** Objects other than `b` that somebody holds keep their view of the data. */
  ghost predicate Kept(bufs: Bufs, bufs': Bufs, handles: Handles, b: nat) {
    forall c :: c != b && Count(handles, c) > 0 && c in bufs ==>
        c in bufs' && bufs'[c] == bufs[c].(refs := bufs'[c].refs)
  }

  function Freed(x: Buf): Buf {
    x.(refs := 0, root := None, len := 0)
  }

  /** Releasing the last reference to a view releases one of its root. */
  lemma DropOfView(bufs: Bufs, puts: seq<nat>, b: nat)
    requires Rooted(bufs, b) && bufs[b].refs == 1 && bufs[b].root != Some(b)
    ensures var r := bufs[b].root.value;
            var y := bufs[r];
            Drop(bufs, puts, b) ==
            if y.refs != 1 then (bufs[b := Freed(bufs[b])][r := y.(refs := y.refs - 1)], puts)
            else (bufs[b := Freed(bufs[b])][r := Freed(y)], puts + [y.slice])
  {
    var r: nat := bufs[b].root.value;
    var y := bufs[r];
    var mid: Bufs := bufs[b := bufs[b].(refs := 0, len := 0)];
    var y' := if y.refs != 1 then y.(refs := y.refs - 1) else Freed(y);
    assert mid[r := y'][b := Freed(bufs[b])] == bufs[b := Freed(bufs[b])][r := y'];
  }

  /** No object but `id` comes to life. */
  ghost predicate OnlyNew(bufs: Bufs, bufs': Bufs, id: nat) {
    forall c :: Live(bufs', c) ==> c == id || Live(bufs, c)
  }

  lemma DropKeeps(bufs: Bufs, handles: Handles, mem: Memory, puts: seq<nat>, b: nat)
    requires Inv(bufs, handles, mem, puts) && Live(bufs, b) && Count(handles, b) > 0
    ensures Rooted(bufs, b)
    ensures var (bufs', puts') := Drop(bufs, puts, b);
            && Inv(bufs', handles[b := Count(handles, b) - 1], mem, puts') && Kept(bufs, bufs', handles, b)
            && (Count(handles, b) > 1 ==> b in bufs' && bufs'[b] == bufs[b].(refs := bufs[b].refs - 1))
  {
    hide Counts, Shapes, Returned;
    assert ShapeOK(bufs, mem, puts, b) && CountOK(bufs, handles, b) by { InvAt(bufs, handles, mem, puts, b); }
    var x := bufs[b];
    var r := x.root.value;
    if x.refs > 1 {
      UpdateKeeps(bufs, handles, mem, puts, b, x.(refs := x.refs - 1), Count(handles, b) - 1);
    } else if r == b {
      DropRootCounts(bufs, handles, b, Freed(x));
      DropRootShapes(bufs, mem, puts, b, Freed(x));
    } else {
      DropLastOfView(bufs, handles, mem, puts, b);
    }
  }

  lemma DropLastOfView(bufs: Bufs, handles: Handles, mem: Memory, puts: seq<nat>, b: nat)
    requires Inv(bufs, handles, mem, puts) && Rooted(bufs, b) && Count(handles, b) == 1
    requires bufs[b].refs == 1 && bufs[b].root != Some(b)
    ensures var (bufs', puts') := Drop(bufs, puts, b);
            Inv(bufs', handles[b := 0], mem, puts') && Kept(bufs, bufs', handles, b)
  {
    hide Counts, Shapes, Returned, Drop;
    var x := bufs[b];
    var r := x.root.value;
    DropOfView(bufs, puts, b);
    InvAt(bufs, handles, mem, puts, b);
    InvAt(bufs, handles, mem, puts, r);
    assert b in Views(bufs, r);
    if bufs[r].refs > 1 {
      DropViewKeeps(bufs, handles, mem, puts, b, Freed(x));
    } else {
      DropCounts(bufs, handles, b, Freed(x), Freed(bufs[r]));
      DropShapes(bufs, mem, puts, b, Freed(x), bufs[r]);
      assert bufs[b := Freed(x)][r := bufs[r]] == bufs[b := Freed(x)];
      DropRootShapes(bufs[b := Freed(x)], mem, puts, r, Freed(bufs[r]));
    }
  }

  lemma InvAt(bufs: Bufs, handles: Handles, mem: Memory, puts: seq<nat>, b: nat)
    requires Inv(bufs, handles, mem, puts)
    ensures ShapeOK(bufs, mem, puts, b) && CountOK(bufs, handles, b)
  {
  }

  /** The slice goes back to the pool exactly when its last buffer goes. */
  lemma DropPuts(bufs: Bufs, handles: Handles, mem: Memory, puts: seq<nat>, b: nat)
    requires Inv(bufs, handles, mem, puts) && Live(bufs, b) && Count(handles, b) > 0 && Rooted(bufs, b)
    ensures var (bufs', puts') := Drop(bufs, puts, b);
            puts' == puts + (if Owned(bufs', bufs[b].slice) then [] else [bufs[b].slice])
  {
    DropKeeps(bufs, handles, mem, puts, b);
    InvAt(bufs, handles, mem, puts, b);
    var (bufs', puts') := Drop(bufs, puts, b);
    var s := bufs[b].slice;
    assert puts' == puts || puts' == puts + [s];
    if c :| Live(bufs', c) && bufs'[c].slice == s {
      assert ShapeOK(bufs', mem, puts', c);
    }
  }

  // ---------------------------------------------------------------- the operations

  /** The objects with a new view `id`, over `len` bytes from `off`, of the root of `b`. */
  function Shared(bufs: Bufs, b: nat, off: nat, len: nat, id: nat): Bufs
    requires Rooted(bufs, b)
  {
    var root: nat := bufs[b].root.value;
    bufs[root := bufs[root].(refs := bufs[root].refs + 1)][id := Buf(1, Some(root), bufs[b].slice, off, len)]
  }

  function Sliced(bufs: Bufs, b: nat, start: nat, end: nat, id: nat): Bufs
    requires Rooted(bufs, b) && start <= end
  {
    var x := bufs[b];
    if start == end then bufs
    else if end - start == x.len then bufs[b := x.(refs := x.refs + 1)]
    else Shared(bufs, b, x.off + start, end - start, id)
  }

  function Parted(bufs: Bufs, b: nat, n: nat, id: nat): Bufs
    requires Rooted(bufs, b) && n <= bufs[b].len
  {
    var after := Shared(bufs, b, bufs[b].off + n, bufs[b].len - n, id);
    after[b := after[b].(len := n)]
  }

  function Advanced(bufs: Bufs, b: nat, n: nat): Bufs
    requires b in bufs && n <= bufs[b].len
  {
    bufs[b := bufs[b].(off := bufs[b].off + n, len := bufs[b].len - n)]
  }

  /** What the package hands out: the empty buffer, a slice without a pool, or a counted buffer. */
  datatype Buffer = Empty | Plain(data: Bytes) | Counted(id: nat)

  /** A window into a slice, seen from the slice and from a window around it. */
  lemma Window(m: Bytes, off: nat, len: nat, start: nat, end: nat)
    requires off + len <= |m| && start <= end <= |m| - off
    ensures m[off + start..][..end - start] == m[off..][start..end] == m[off + start..off + end]
    ensures end <= len ==> m[off..][..len][start..end] == m[off..][start..end]
  {
  }

  /** All buffer objects, the memory they cover and the pool the slices go back to. */
  class Arena {
    var bufs: Bufs
    var mem: Memory
    var puts: seq<nat>
    var leases: nat
    ghost var handles: Handles

    ghost predicate Valid()
      reads this
    {
      Inv(bufs, handles, mem, puts) && forall s :: s in mem ==> s < leases
    }

    function Look(held: Handles): State
      reads this
    {
      State(bufs, mem, puts, leases, held)
    }

    /** The bytes from the start of a live buffer's view to the end of its slice. */
    ghost function Room(b: nat): (d: Bytes)
      requires Valid() && Live(bufs, b)
      reads this
      ensures bufs[b].len <= |d|
    {
      InvAt(bufs, handles, mem, puts, b);
      mem[bufs[b].slice][bufs[b].off..]
    }

    /** The bytes a live buffer shows. */
    ghost function Data(b: nat): (d: Bytes)
      requires Valid() && Live(bufs, b)
      reads this
      ensures |d| == bufs[b].len
    {
      Room(b)[..bufs[b].len]
    }

    constructor ()
      ensures Valid() && handles == multiset{} && Look(multiset{}) == Init()
      ensures bufs == map[] && mem == map[] && puts == []
    {
      bufs, mem, puts, leases, handles := map[], map[], [], 0, multiset{};
    }

    /** `data` up to its capacity, of which `len` bytes are in use.  Pools are used only for slices whose
        capacity is above the threshold. */
    method NewBuffer(data: Bytes, len: nat, pooled: bool, id: nat) returns (r: Buffer)
      requires Valid() && !Live(bufs, id) && len <= |data|
      modifies this
      ensures Valid() && puts == old(puts)
      ensures !pooled || |data| <= POOLING_THRESHOLD ==>
                r == Plain(data[..len]) && bufs == old(bufs) && mem == old(mem) && handles == old(handles)
      ensures pooled && |data| > POOLING_THRESHOLD ==>
                r == Counted(id) && Live(bufs, id) && Room(id) == data && Data(id) == data[..len] &&
                    handles == old(handles)[id := 1]
      ensures pooled && |data| > POOLING_THRESHOLD ==>
                && bufs == old(bufs)[id := Buf(1, Some(id), old(leases), 0, len)] &&
                     mem == old(mem)[old(leases) := data] && leases == old(leases) + 1
      ensures !pooled || |data| <= POOLING_THRESHOLD ==> leases == old(leases)
      ensures Kept(old(bufs), bufs, old(handles), id) && OnlyNew(old(bufs), bufs, id)
      ensures forall s :: s in old(mem) ==> s in mem && mem[s] == old(mem)[s]
    {
      if !pooled || |data| <= POOLING_THRESHOLD {
        return Plain(data[..len]);
      }
      NewRootKeeps(bufs, handles, mem, puts, id, leases, data, len);
      bufs := bufs[id := Buf(1, Some(id), leases, 0, len)];
      mem := mem[leases := data];
      handles := handles[id := 1];
      leases := leases + 1;
      r := Counted(id);
    }

    /** Panics (`!ok`) exactly on a freed buffer. */
    method Ref(b: nat) returns (ok: bool)
      requires Valid() && b in bufs
      modifies this`bufs, this`handles
      ensures ok <==> old(Live(bufs, b))
      ensures ok ==> Valid() && bufs == old(bufs)[b := old(bufs)[b].(refs := old(bufs)[b].refs + 1)]
      ensures ok ==> handles == old(handles)[b := Count(old(handles), b) + 1]
    {
      hide Inv, Counts, Shapes, Returned;
      InvAt(bufs, handles, mem, puts, b);
      var x := bufs[b].(refs := bufs[b].refs + 1);
      if x.refs <= 1 {
        bufs := bufs[b := x];
        return false;
      }
      UpdateKeeps(bufs, handles, mem, puts, b, x, Count(handles, b) + 1);
      bufs := bufs[b := x];
      handles := handles[b := Count(handles, b) + 1];
      ok := true;
    }

    /** Panics exactly on a freed buffer; otherwise gives up one reference.  The slice goes back to the pool
        exactly when no buffer that covers it is left. */
    method Free(b: nat) returns (ok: bool)
      requires Valid() && b in bufs && (Live(bufs, b) ==> Count(handles, b) > 0)
      modifies this`bufs, this`handles, this`puts
      ensures ok <==> old(Live(bufs, b))
      ensures ok ==> Valid() && Kept(old(bufs), bufs, old(handles), b)
      ensures ok ==> Rooted(old(bufs), b) && (bufs, puts) == Drop(old(bufs), old(puts), b)
      ensures ok ==> handles == old(handles)[b := Count(old(handles), b) - 1]
      ensures ok && Count(handles, b) > 0 ==> Live(bufs, b) && Data(b) == old(Data(b))
      ensures ok ==> puts == old(puts) + if Owned(bufs, old(bufs)[b].slice) then [] else [old(bufs)[b].slice]
    {
      hide Inv, Counts, Shapes, Returned, Drop, Owned;
      InvAt(bufs, handles, mem, puts, b);
      if Live(bufs, b) {
        InvAt(bufs, handles, mem, puts, bufs[b].root.value);
        DropKeeps(bufs, handles, mem, puts, b);
        DropPuts(bufs, handles, mem, puts, b);
      }
      ok := DropRef(b);
      if ok {
        handles := handles[b := Count(handles, b) - 1];
      }
    }

    /** One reference less; the last one of a view releases one of its root. */
    method DropRef(b: nat) returns (ok: bool)
      requires b in bufs && (bufs[b].refs > 0 ==> Rooted(bufs, b) && bufs[bufs[b].root.value].refs > 0)
      modifies this`bufs, this`puts
      ensures ok <==> old(bufs[b].refs) > 0
      ensures ok ==> (bufs, puts) == Drop(old(bufs), old(puts), b)
      decreases if bufs[b].root == Some(b) then 0 else 1
    {
      bufs := bufs[b := bufs[b].(refs := bufs[b].refs - 1)];
      if bufs[b].refs < 0 {
        return false;
      }
      ok := true;
      if bufs[b].refs > 0 {
        return;
      }
      bufs := bufs[b := bufs[b].(len := 0)];
      assert bufs == old(bufs)[b := old(bufs)[b].(refs := 0, len := 0)];
      if bufs[b].root == Some(b) {
        puts := puts + [bufs[b].slice];
      } else {
        ok := DropRef(bufs[b].root.value);
      }
      bufs := bufs[b := bufs[b].(root := None)];
      assert bufs == Drop(old(bufs), old(puts), b).0;
    }

    /** A new view over `len` bytes from `off`, with one reference; the root of `b` gains one. */
    method Share(b: nat, off: nat, len: nat, id: nat)
      requires Valid() && Live(bufs, b) && !Live(bufs, id)
      requires bufs[b].off <= off && off + len <= bufs[b].off + |Room(b)|
      modifies this`bufs, this`handles
      ensures Valid() && handles == old(handles)[id := 1] && id != b && Count(old(handles), id) == 0
      ensures forall c :: c in old(bufs) && c != id ==> c in bufs && bufs[c] == old(bufs)[c].(refs := bufs[c].refs)
      ensures b in bufs && id in bufs && bufs[id] == Buf(1, bufs[b].root, bufs[b].slice, off, len)
      ensures Rooted(old(bufs), b) && bufs == Shared(old(bufs), b, off, len, id)
      ensures OnlyNew(old(bufs), bufs, id)
    {
      hide Inv, Counts, Shapes, Returned;
      var root: nat := bufs[b].root.value;
      var view := Buf(1, Some(root), bufs[b].slice, off, len);
      InvAt(bufs, handles, mem, puts, id);
      InvAt(bufs, handles, mem, puts, b);
      InvAt(bufs, handles, mem, puts, root);
      NewViewKeeps(bufs, handles, mem, puts, root, id, view);
      bufs := bufs[root := bufs[root].(refs := bufs[root].refs + 1)];
      bufs := bufs[id := view];
      handles := handles[id := 1];
    }

    /** Panics exactly on a freed buffer or when `start..end` leaves the capacity behind the view.  The
        result shows the requested bytes whenever the range lies inside the view; a range that runs past
        the view but has its length gives back the buffer itself. */
    method Slice(b: nat, start: int, end: int, id: nat) returns (r: Option<Buffer>)
      requires Valid() && b in bufs && !Live(bufs, id)
      modifies this`bufs, this`handles
      ensures r.Some? <==> old(Live(bufs, b)) && 0 <= start <= end <= |old(Room(b))|
      ensures r.None? ==> bufs == old(bufs) && handles == old(handles)
      ensures Valid() && Kept(old(bufs), bufs, old(handles), id) && OnlyNew(old(bufs), bufs, id)
      ensures r.Some? ==> Live(bufs, b) && Data(b) == old(Data(b))
      ensures r.Some? && start == end ==> r == Some(Empty) && handles == old(handles)
      ensures r.Some? && start < end && end - start == |old(Data(b))| ==>
                r == Some(Counted(b)) && handles == old(handles)[b := Count(old(handles), b) + 1]
      ensures r.Some? && start < end && end - start != |old(Data(b))| ==>
                && r == Some(Counted(id)) && handles == old(handles)[id := 1] && Live(bufs, id)
                && Data(id) == old(Room(b))[start..end]
                && (end <= |old(Data(b))| ==> Data(id) == old(Data(b))[start..end])
      ensures r.Some? ==> Rooted(old(bufs), b) && bufs == Sliced(old(bufs), b, start, end, id)
      // The bytes asked for come back, but for a range past the view that has the view's length.
      ensures r.Some? && start < end && !(end > |old(Data(b))| && end - start == |old(Data(b))|) ==>
                r.value.Counted? && Live(bufs, r.value.id) && Data(r.value.id) == old(Room(b))[start..end]
    {
      hide Inv, Counts, Shapes, Returned;
      InvAt(bufs, handles, mem, puts, b);
      if bufs[b].root.None? {
        return None;
      }
      var x := bufs[b];
      if !(0 <= start <= end <= |mem[x.slice]| - x.off) {
        return None;
      }
      if start == end {
        return Some(Empty);
      }
      if end - start == x.len {
        var ok := Ref(b);
        return Some(Counted(b));
      }
      Window(mem[x.slice], x.off, x.len, start, end);
      Share(b, x.off + start, end - start, id);
      return Some(Counted(id));
    }

    /** Panics exactly on a freed buffer or when `n` is past the end of the view; otherwise the buffer keeps
        the first `n` bytes and a new one gets the rest. */
    method Split(b: nat, n: int, id: nat) returns (ok: bool)
      requires Valid() && b in bufs && !Live(bufs, id)
      modifies this`bufs, this`handles
      ensures ok <==> old(Live(bufs, b)) && 0 <= n <= |old(Data(b))|
      ensures ok ==> Valid() && Kept(old(bufs), bufs, old(handles), b) && handles == old(handles)[id := 1]
      ensures OnlyNew(old(bufs), bufs, id)
      ensures ok ==> Live(bufs, b) && Live(bufs, id) && b != id
      ensures ok ==> Data(b) == old(Data(b))[..n] && Data(id) == old(Data(b))[n..] && Room(b) == old(Room(b))
      ensures ok ==> Rooted(old(bufs), b) && bufs == Parted(old(bufs), b, n, id)
    {
      hide Inv, Counts, Shapes, Returned, Shared, Owned, Views;
      InvAt(bufs, handles, mem, puts, b);
      if bufs[b].root.None? {
        return false;
      }
      var x := bufs[b];
      var root: nat := x.root.value;
      InvAt(bufs, handles, mem, puts, root);
      if !(0 <= n <= x.len) {
        bufs := bufs[root := bufs[root].(refs := bufs[root].refs + 1)];
        return false;
      }
      Window(mem[x.slice], x.off, x.len, 0, n);
      Window(mem[x.slice], x.off, x.len, n, x.len);
      Share(b, x.off + n, x.len - n, id);
      InvAt(bufs, handles, mem, puts, b);
      UpdateKeeps(bufs, handles, mem, puts, b, bufs[b].(len := n), Count(handles, b));
      assert handles == handles[b := Count(handles, b)];
      bufs := bufs[b := bufs[b].(len := n)];
      ok := true;
    }

    /** Panics exactly on a freed buffer; otherwise copies out up to `size` bytes, which are still leased, and
        frees the buffer once all its bytes are read. */
    method Read(b: nat, size: nat) returns (ok: bool, out: Bytes, more: bool)
      requires Valid() && b in bufs && (Live(bufs, b) ==> Count(handles, b) > 0)
      modifies this`bufs, this`handles, this`puts
      ensures ok <==> old(Live(bufs, b))
      ensures ok ==> Valid() && Kept(old(bufs), bufs, old(handles), b)
      ensures ok ==> old(bufs)[b].slice !in old(puts) && (more <==> size < |old(Data(b))|)
      ensures ok && more ==> out == old(Data(b))[..size] && Live(bufs, b) && Data(b) == old(Data(b))[size..]
      ensures ok && more ==> handles == old(handles) && puts == old(puts)
      ensures ok && !more ==> out == old(Data(b)) && handles == old(handles)[b := Count(old(handles), b) - 1]
      ensures ok ==> Rooted(old(bufs), b) && (bufs, puts) == if more then (Advanced(old(bufs), b, size), old(puts))
                else Drop(old(bufs), old(puts), b)
    {
      hide Inv, Counts, Shapes, Returned, Owned;
      InvAt(bufs, handles, mem, puts, b);
      if bufs[b].root.None? {
        return false, [], false;
      }
      var x := bufs[b];
      var n := if size < x.len then size else x.len;
      out := mem[x.slice][x.off..x.off + n];
      Window(mem[x.slice], x.off, x.len, 0, n);
      Window(mem[x.slice], x.off, x.len, n, x.len);
      more := n < x.len;
      if more {
        UpdateKeeps(bufs, handles, mem, puts, b, x.(off := x.off + n, len := x.len - n), Count(handles, b));
        assert handles == handles[b := Count(handles, b)];
        bufs := bufs[b := x.(off := x.off + n, len := x.len - n)];
        ok := true;
      } else {
        ok := Free(b);
      }
    }
  }

  // ---------------------------------------------------------------- any use

  datatype Op =
    | Make(data: Bytes, len: nat, pooled: bool, id: nat)
    | AddRef(b: nat)
    | Release(b: nat)
    | View(b: nat, start: int, end: int, id: nat)
    | Cut(b: nat, n: int, id: nat)
    | Consume(b: nat, size: nat)

  /** The operations that panic: on a freed buffer, or outside the bounds. */
  predicate Misuse(s: State, op: Op) {
    match op
    case Make(_, _, _, _) => false
    case AddRef(b) => b in s.bufs && !Live(s.bufs, b)
    case Release(b) => b in s.bufs && !Live(s.bufs, b)
    case View(b, start, end, id) =>
      && b in s.bufs && !Live(s.bufs, id)
      && !(Live(s.bufs, b) && s.bufs[b].slice in s.mem && 0 <= start <= end <= |s.mem[s.bufs[b].slice]| - s.bufs[b].off)
    case Cut(b, n, id) => b in s.bufs && !Live(s.bufs, id) && !(Live(s.bufs, b) && 0 <= n <= s.bufs[b].len)
    case Consume(b, _) => b in s.bufs && !Live(s.bufs, b)
  }

  /** Everything a user could see: the objects, the memory, what went back to pools, and who holds what. */
  datatype State = State(bufs: Bufs, mem: Memory, puts: seq<nat>, leases: nat, held: Handles)

  function Init(): State {
    State(map[], map[], [], 0, multiset{})
  }

  function Released(s: State, b: nat): State
    requires Rooted(s.bufs, b) && s.held[b] > 0
  {
    var (bufs, puts) := Drop(s.bufs, s.puts, b);
    s.(bufs := bufs, puts := puts, held := s.held[b := s.held[b] - 1])
  }

  /** What an operation that does not panic does.  One on a live buffer that nobody holds, or that would reuse an
      object in use, is left out. */
  function Next(s: State, op: Op): State {
    match op
    case Make(data, len, pooled, id) =>
      if Live(s.bufs, id) || len > |data| || !pooled || |data| <= POOLING_THRESHOLD then s
      else State(s.bufs[id := Buf(1, Some(id), s.leases, 0, len)], s.mem[s.leases := data], s.puts, s.leases + 1,
          s.held[id := 1])
    case AddRef(b) =>
      if b !in s.bufs then s
      else s.(bufs := s.bufs[b := s.bufs[b].(refs := s.bufs[b].refs + 1)], held := s.held[b := s.held[b] + 1])
    case Release(b) => if Rooted(s.bufs, b) && s.held[b] > 0 then Released(s, b) else s
    case View(b, start, end, id) =>
      if !Rooted(s.bufs, b) || Live(s.bufs, id) || !(0 <= start < end) then s
      else
        var held := if end - start == s.bufs[b].len then s.held[b := s.held[b] + 1] else s.held[id := 1];
        s.(bufs := Sliced(s.bufs, b, start, end, id), held := held)
    case Cut(b, n, id) =>
      if !Rooted(s.bufs, b) || Live(s.bufs, id) || !(0 <= n <= s.bufs[b].len) then s
      else s.(bufs := Parted(s.bufs, b, n, id), held := s.held[id := 1])
    case Consume(b, size) =>
      if !Rooted(s.bufs, b) || s.held[b] == 0 then s
      else if size < s.bufs[b].len then s.(bufs := Advanced(s.bufs, b, size))
      else Released(s, b)
  }

  function Run(s: State, ops: seq<Op>): State {
    if ops == [] then s else Next(Run(s, ops[..|ops| - 1]), ops[|ops| - 1])
  }

  /** A count is handles plus live views, what is held is live, no slice is returned twice, and one is returned
      exactly when nobody holds a buffer covering it. */
  ghost predicate Safe(s: State) {
    && (forall b :: Live(s.bufs, b) ==> s.bufs[b].refs == s.held[b] + |Views(s.bufs, b)|)
    && (forall b :: s.held[b] > 0 ==> Live(s.bufs, b))
    && (forall i, j :: 0 <= i < j < |s.puts| ==> s.puts[i] != s.puts[j])
    && (forall l :: l in s.mem ==> (l in s.puts <==>
          !exists v :: Live(s.bufs, v) && s.held[v] > 0 && s.bufs[v].slice == l))
  }

  /** Runs the operations as one user or many would: on buffers somebody holds, with objects not in use for
      new views.  The run ends at the first operation that panics. */
  method AnyUse(ops: seq<Op>) returns (s: State, steps: nat)
    ensures steps <= |ops| && s == Run(Init(), ops[..steps]) && Safe(s)
    ensures forall k :: 0 <= k < steps ==> !Misuse(Run(Init(), ops[..k]), ops[k])
    ensures steps < |ops| ==> Misuse(s, ops[steps])
  {
    hide Inv, Live, Views, Misuse, Next, Safe;
    var arena := new Arena();
    s, steps := Init(), 0;
    while steps < |ops|
      invariant steps <= |ops|
      invariant arena.Valid() && arena.handles == s.held && s == arena.Look(s.held) == Run(Init(), ops[..steps])
      invariant forall k :: 0 <= k < steps ==> !Misuse(Run(Init(), ops[..k]), ops[k])
    {
      assert ops[..steps + 1][..steps] == ops[..steps];
      var held, ok := Perform(arena, ops[steps], s.held);
      if !ok {
        break;
      }
      steps := steps + 1;
      s := arena.Look(held);
    }
    Summary(s);
  }

  lemma Summary(s: State)
    requires Inv(s.bufs, s.held, s.mem, s.puts)
    ensures Safe(s)
  {
    hide Inv;
    forall b: nat
      ensures Live(s.bufs, b) ==> s.bufs[b].refs == s.held[b] + |Views(s.bufs, b)|
      ensures s.held[b] > 0 ==> Live(s.bufs, b)
    {
      InvAt(s.bufs, s.held, s.mem, s.puts, b);
    }
    forall l | l in s.mem
      ensures l in s.puts <==> !exists v :: Live(s.bufs, v) && s.held[v] > 0 && s.bufs[v].slice == l
    {
      ReturnedIffUnheld(s.bufs, s.held, s.mem, s.puts, l);
    }
    ReturnedOnce(s.bufs, s.held, s.mem, s.puts);
  }

  lemma ReturnedOnce(bufs: Bufs, handles: Handles, mem: Memory, puts: seq<nat>)
    requires Inv(bufs, handles, mem, puts)
    ensures forall i, j :: 0 <= i < j < |puts| ==> puts[i] != puts[j]
  {
  }

  /** One operation; `!ok` is a panic. */
  method Perform(arena: Arena, op: Op, held: Handles) returns (held': Handles, ok: bool)
    requires arena.Valid() && arena.handles == held
    modifies arena
    ensures ok <==> !Misuse(old(arena.Look(held)), op)
    ensures ok ==> arena.Valid() && arena.handles == held' && arena.Look(held') == Next(old(arena.Look(held)), op)
    ensures !ok ==> held' == held
  {
    hide Inv, Kept, Owned, Counts, Shapes, Returned, Drop, Sliced, Parted, Advanced;
    held', ok := held, true;
    match op {
      case Make(data, len, pooled, id) =>
        if Live(arena.bufs, id) || len > |data| { return; }
        var r := arena.NewBuffer(data, len, pooled, id);
        if r.Counted? { held' := held[id := 1]; }
      case AddRef(b) =>
        if b !in arena.bufs { return; }
        ok := arena.Ref(b);
        if ok { held' := held[b := held[b] + 1]; }
      case Release(b) =>
        if b !in arena.bufs || (Live(arena.bufs, b) && held[b] == 0) { return; }
        ok := arena.Free(b);
        if ok { held' := held[b := held[b] - 1]; }
      case View(b, start, end, id) => held', ok := PerformView(arena, b, start, end, id, held);
      case Cut(b, n, id) =>
        if b !in arena.bufs || Live(arena.bufs, id) { return; }
        ok := arena.Split(b, n, id);
        if ok { held' := held[id := 1]; }
      case Consume(b, size) => held', ok := PerformConsume(arena, b, size, held);
    }
  }

  method PerformConsume(arena: Arena, b: nat, size: nat, held: Handles) returns (held': Handles, ok: bool)
    requires arena.Valid() && arena.handles == held
    modifies arena
    ensures ok <==> !Misuse(old(arena.Look(held)), Consume(b, size))
    ensures ok ==> arena.Valid() && arena.handles == held'
    ensures ok ==> arena.Look(held') == Next(old(arena.Look(held)), Consume(b, size))
    ensures !ok ==> held' == held
  {
    hide Inv, Kept, Owned, Counts, Shapes, Returned, Drop, Sliced, Parted, Advanced;
    held', ok := held, true;
    if b !in arena.bufs || (Live(arena.bufs, b) && held[b] == 0) {
      return;
    }
    var out, more;
    ok, out, more := arena.Read(b, size);
    if ok && !more {
      held' := held[b := held[b] - 1];
    }
  }

  method PerformView(arena: Arena, b: nat, start: int, end: int, id: nat, held: Handles)
    returns (held': Handles, ok: bool)
    requires arena.Valid() && arena.handles == held
    modifies arena
    ensures ok <==> !Misuse(old(arena.Look(held)), View(b, start, end, id))
    ensures ok ==> arena.Valid() && arena.handles == held'
    ensures ok ==> arena.Look(held') == Next(old(arena.Look(held)), View(b, start, end, id))
    ensures !ok ==> held' == held
  {
    hide Inv, Kept, Owned, Counts, Shapes, Returned, Drop, Shared, Parted, Advanced;
    held', ok := held, true;
    if b !in arena.bufs || Live(arena.bufs, id) {
      return;
    }
    InvAt(arena.bufs, arena.handles, arena.mem, arena.puts, b);
    var r := arena.Slice(b, start, end, id);
    ok := r.Some?;
    if r == Some(Counted(b)) {
      held' := held[b := held[b] + 1];
    } else if r == Some(Counted(id)) {
      held' := held[id := 1];
    }
  }

  // ---------------------------------------------------------------- what the documentation does not say

  /** The only reference to `first` is released; once its object is reused for `second`, taking a reference through the
      old pointer succeeds. */
  method StaleReference(first: Bytes, second: Bytes, id: nat) returns (freed: bool, ok: bool)
    requires |first| > POOLING_THRESHOLD && |second| > POOLING_THRESHOLD
    ensures freed && ok
  {
    hide Inv, Owned, Kept;
    var arena := new Arena();
    var a := arena.NewBuffer(first, |first|, true, id);
    freed := arena.Free(id);
    LastFreed(arena, id);
    var b := arena.NewBuffer(second, |second|, true, id);
    ok := arena.Ref(id);
  }

  lemma LastFreed(arena: Arena, b: nat)
    requires arena.Valid() && arena.handles[b] == 0 && |arena.handles| == 0
    ensures !Live(arena.bufs, b)
  {
    if Live(arena.bufs, b) {
      LiveIsHeld(arena.bufs, arena.handles, arena.mem, arena.puts, b);
    }
  }

  /** After a split at `n`, a range of the left part's length that starts later is accepted, and gives back the left
      part instead of the bytes asked for: `got` is what a read of the result returns. */
  method SlicePastView(data: Bytes, n: nat, start: nat) returns (r: Option<Buffer>, got: Bytes)
    requires |data| > POOLING_THRESHOLD && 0 < n && 0 < start && n + start <= |data|
    ensures r == Some(Counted(0)) && got == data[..n]
  {
    hide Inv, Owned, Kept;
    var arena := new Arena();
    var a := arena.NewBuffer(data, |data|, true, 0);
    assert !Live(arena.bufs, 1);
    var ok := arena.Split(0, n, 1);
    assert !Live(arena.bufs, 2);
    r := arena.Slice(0, start, start + n, 2);
    var more;
    ok, got, more := arena.Read(0, n);
  }
}
