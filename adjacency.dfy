/** The 26-slot adjacency table that `initChunks` stores in every chunk.

    The table is filled by three nested loops over the offsets ni, nj, nk in -1..1
    (ni outermost), skipping the zero offset and every neighbour outside the grid; each
    remaining neighbour is written to slot `3*(ni+1) + (nj+1)*3 + (nk+1)`. That formula
    weighs ni and nj alike, so offsets with the same ni+nj and the same nk share a slot
    and the later write wins; slots 15..25 are never written. `IntendedTable` is the
    layout with one slot per offset, proved complete and symmetric below. */
module Adjacency {
  import opened Containers

  /** Position of offset (ni, nj, nk) in the loop order: 0..26, where 13 is the zero offset. */
  function Position(o: Int3): int
  {
    9 * (o.x + 1) + 3 * (o.y + 1) + (o.z + 1)
  }

  function OffsetAt(q: int): Int3
    requires 0 <= q < 27
  {
    var x := if q < 9 then -1 else if q < 18 then 0 else 1;
    var r := q - 9 * (x + 1);
    var y := if r < 3 then -1 else if r < 6 then 0 else 1;
    Int3(x, y, r - 3 * (y + 1) - 1)
  }

  predicate IsOffset(o: Int3)
  {
    -1 <= o.x <= 1 && -1 <= o.y <= 1 && -1 <= o.z <= 1
  }

  lemma OffsetAtPosition(o: Int3)
    requires IsOffset(o)
    ensures 0 <= Position(o) < 27 && OffsetAt(Position(o)) == o
  {
  }

  lemma PositionCentre(o: Int3)
    requires IsOffset(o)
    ensures Position(o) == 13 <==> o == Int3(0, 0, 0)
  {
  }

  lemma PositionOfOffsetAt(q: int)
    requires 0 <= q < 27
    ensures IsOffset(OffsetAt(q)) && Position(OffsetAt(q)) == q
    ensures OffsetAt(q) == Int3(0, 0, 0) <==> q == 13
  {
  }

  function Shift(c: Int3, o: Int3): Int3
  {
    Int3(c.x + o.x, c.y + o.y, c.z + o.z)
  }

  function Diff(n: Int3, c: Int3): Int3
  {
    Int3(n.x - c.x, n.y - c.y, n.z - c.z)
  }

  predicate InGrid(c: Int3, counts: Int3)
  {
    0 <= c.x < counts.x && 0 <= c.y < counts.y && 0 <= c.z < counts.z
  }

  /** The slot formula of the source, as written. */
  function Slot(o: Int3): int
  {
    3 * (o.x + 1) + (o.y + 1) * 3 + (o.z + 1)
  }

  /** Loop step q stores a neighbour of chunk c into slot s. */
  predicate Writes(c: Int3, counts: Int3, q: int, s: int)
    requires 0 <= q < 27
  {
    q != 13 && InGrid(Shift(c, OffsetAt(q)), counts) && Slot(OffsetAt(q)) == s
  }

  /** Content of slot s after the first p loop steps: the neighbour of the last step that
      wrote s, or NULL (None) when no step did. */
  function LastWrite(c: Int3, counts: Int3, s: int, p: int): Option<Int3>
    requires 0 <= p <= 27
  {
    if p == 0 then None
    else if Writes(c, counts, p - 1, s) then Some(Shift(c, OffsetAt(p - 1)))
    else LastWrite(c, counts, s, p - 1)
  }

  /** The adjacency table the source stores for chunk c. */
  function AdjTable(c: Int3, counts: Int3): seq<Option<Int3>>
  {
    seq(26, s => LastWrite(c, counts, s, 27))
  }

  const NoNeighbours: seq<Option<Int3>> := seq(26, _ => None)

  /** The table after the first p loop steps. */
  ghost predicate TableAt(c: Int3, counts: Int3, adj: seq<Option<Int3>>, p: int)
    requires 0 <= p <= 27
  {
    |adj| == 26 && forall s | 0 <= s < 26 :: adj[s] == LastWrite(c, counts, s, p)
  }

  /** One step of the loops: offset o writes its in-grid neighbour into its slot. */
  function Step(c: Int3, counts: Int3, adj: seq<Option<Int3>>, o: Int3): seq<Option<Int3>>
    requires |adj| == 26 && IsOffset(o)
  {
    if o != Int3(0, 0, 0) && InGrid(Shift(c, o), counts) then adj[Slot(o) := Some(Shift(c, o))] else adj
  }

  lemma TableStep(c: Int3, counts: Int3, adj: seq<Option<Int3>>, o: Int3)
    requires IsOffset(o) && TableAt(c, counts, adj, Position(o))
    ensures TableAt(c, counts, Step(c, counts, adj, o), Position(o) + 1)
  {
    forall s | 0 <= s < 26
      ensures Step(c, counts, adj, o)[s] == LastWrite(c, counts, s, Position(o) + 1)
    {
      StepSlot(c, counts, adj, o, s);
    }
  }

  lemma StepSlot(c: Int3, counts: Int3, adj: seq<Option<Int3>>, o: Int3, s: int)
    requires IsOffset(o) && |adj| == 26 && 0 <= s < 26
    requires adj[s] == LastWrite(c, counts, s, Position(o))
    ensures Step(c, counts, adj, o)[s] == LastWrite(c, counts, s, Position(o) + 1)
  {
    var q := Position(o);
    OffsetAtPosition(o);
    PositionCentre(o);
    var writes := o != Int3(0, 0, 0) && InGrid(Shift(c, o), counts) && Slot(o) == s;
    assert Writes(c, counts, q, s) == writes;
    if writes {
      assert LastWrite(c, counts, s, q + 1) == Some(Shift(c, o));
    } else {
      assert LastWrite(c, counts, s, q + 1) == LastWrite(c, counts, s, q);
    }
  }

  lemma TableDone(c: Int3, counts: Int3, adj: seq<Option<Int3>>)
    requires TableAt(c, counts, adj, 27)
    ensures adj == AdjTable(c, counts)
  {
  }

  /** The innermost adjacency loop of `initChunks` (over nk) for fixed ni and nj. */
  method NeighbourRow(c: Int3, counts: Int3, adj0: seq<Option<Int3>>, ni: int, nj: int)
    returns (adj: seq<Option<Int3>>)
    requires IsOffset(Int3(ni, nj, 0)) && TableAt(c, counts, adj0, Position(Int3(ni, nj, -1)))
    ensures TableAt(c, counts, adj, Position(Int3(ni, nj, 1)) + 1)
  {
    adj := adj0;
    for nk := -1 to 2
      invariant TableAt(c, counts, adj, Position(Int3(ni, nj, nk)))
    {
      TableStep(c, counts, adj, Int3(ni, nj, nk));
      ghost var next := Step(c, counts, adj, Int3(ni, nj, nk));
      if ni == 0 && nj == 0 && nk == 0 {
        continue;
      }
      var n := Int3(c.x + ni, c.y + nj, c.z + nk);
      assert n == Shift(c, Int3(ni, nj, nk));
      if 0 <= n.x < counts.x && 0 <= n.y < counts.y && 0 <= n.z < counts.z {
        assert 3 * (ni + 1) + (nj + 1) * 3 + (nk + 1) == Slot(Int3(ni, nj, nk));
        adj := adj[3 * (ni + 1) + (nj + 1) * 3 + (nk + 1) := Some(n)];
      }
      assert adj == next;
    }
  }

  /** The adjacency loops of `initChunks` for one chunk, starting from the all-NULL table. */
  method NeighbourSlots(c: Int3, counts: Int3) returns (adj: seq<Option<Int3>>)
    ensures adj == AdjTable(c, counts)
  {
    adj := NoNeighbours;
    for ni := -1 to 2
      invariant TableAt(c, counts, adj, Position(Int3(ni, -1, -1)))
    {
      for nj := -1 to 2
        invariant TableAt(c, counts, adj, Position(Int3(ni, nj, -1)))
      {
        adj := NeighbourRow(c, counts, adj, ni, nj);
      }
    }
    TableDone(c, counts, adj);
  }

  // ---------------------------------------------------------------------------
  // What the stored table holds.

  /** A stored neighbour n of chunk c lies in the grid, differs from c by an offset in
      {-1,0,1}^3 other than zero, and sits in that offset's slot. */
  lemma {:induction false} LastWriteSound(c: Int3, counts: Int3, s: int, p: int)
    requires 0 <= p <= 27
    ensures LastWrite(c, counts, s, p).Some? ==>
      var n := LastWrite(c, counts, s, p).value;
      InGrid(n, counts) && IsOffset(Diff(n, c)) && Diff(n, c) != Int3(0, 0, 0) && Slot(Diff(n, c)) == s
  {
    if p > 0 {
      PositionOfOffsetAt(p - 1);
      if !Writes(c, counts, p - 1, s) {
        LastWriteSound(c, counts, s, p - 1);
      }
    }
  }

  /** Each non-NULL slot of a chunk's table refers to an in-grid chunk adjacent to it (and
      not to the chunk itself), and slots 15..25 are always NULL. */
  lemma AdjTableSound(c: Int3, counts: Int3)
    ensures |AdjTable(c, counts)| == 26
    ensures forall s | 0 <= s < 26 && AdjTable(c, counts)[s].Some? ::
      var n := AdjTable(c, counts)[s].value;
      InGrid(n, counts) && IsOffset(Diff(n, c)) && n != c
    ensures forall s | 15 <= s < 26 :: AdjTable(c, counts)[s] == None
  {
    forall s | 0 <= s < 26
      ensures AdjTable(c, counts)[s].Some? ==>
        var n := AdjTable(c, counts)[s].value;
        InGrid(n, counts) && IsOffset(Diff(n, c)) && n != c && s < 15
    {
      LastWriteSound(c, counts, s, 27);
    }
  }

  /** Two offsets share a slot exactly when their ni+nj agree and their nk agree. */
  lemma SlotShared(o1: Int3, o2: Int3)
    requires IsOffset(o1) && IsOffset(o2)
    ensures Slot(o1) == Slot(o2) <==> o1.x + o1.y == o2.x + o2.y && o1.z == o2.z
  {
  }

  /** No loop step after step 10 (offset (0,-1,0)) writes slot 4. */
  lemma {:induction false} Slot4Settled(c: Int3, counts: Int3, p: int)
    requires 11 <= p <= 27
    ensures LastWrite(c, counts, 4, p) == LastWrite(c, counts, 4, 11)
  {
    if p > 11 {
      PositionOfOffsetAt(p - 1);
      assert !Writes(c, counts, p - 1, 4);
      Slot4Settled(c, counts, p - 1);
    }
  }

  /** No loop step after step 22 (offset (1,0,0)) writes slot 10. */
  lemma {:induction false} Slot10Settled(c: Int3, counts: Int3, p: int)
    requires 23 <= p <= 27
    ensures LastWrite(c, counts, 10, p) == LastWrite(c, counts, 10, 23)
  {
    if p > 23 {
      PositionOfOffsetAt(p - 1);
      assert !Writes(c, counts, p - 1, 10);
      Slot10Settled(c, counts, p - 1);
    }
  }

  /** Slot 4 of a chunk with j >= 1 holds its neighbour at offset (0,-1,0). */
  lemma Slot4Holds(c: Int3, counts: Int3)
    requires InGrid(c, counts) && c.y >= 1
    ensures AdjTable(c, counts)[4] == Some(Int3(c.x, c.y - 1, c.z))
  {
    Slot4Settled(c, counts, 27);
    assert OffsetAt(10) == Int3(0, -1, 0);
    assert Writes(c, counts, 10, 4);
  }

  /** The neighbour at offset (-1,0,0) of a chunk with i >= 1 and j >= 1 is stored in no
      slot: slot 4 is overwritten by the neighbour at (0,-1,0). */
  lemma LowerXNeighbourMissing(c: Int3, counts: Int3)
    requires InGrid(c, counts) && c.x >= 1 && c.y >= 1
    ensures AdjTable(c, counts)[4] == Some(Int3(c.x, c.y - 1, c.z))
    ensures Some(Int3(c.x - 1, c.y, c.z)) !in AdjTable(c, counts)
  {
    Slot4Holds(c, counts);
    var table := AdjTable(c, counts);
    forall s | 0 <= s < 26
      ensures table[s] != Some(Int3(c.x - 1, c.y, c.z))
    {
      LastWriteSound(c, counts, s, 27);
    }
  }

  /** Slot 10 of a chunk holds its neighbour at offset (1,0,0) whenever that is in the grid. */
  lemma Slot10Holds(n: Int3, counts: Int3)
    requires InGrid(Int3(n.x + 1, n.y, n.z), counts)
    ensures AdjTable(n, counts)[10] == Some(Int3(n.x + 1, n.y, n.z))
  {
    Slot10Settled(n, counts, 27);
    assert OffsetAt(22) == Int3(1, 0, 0);
    assert Writes(n, counts, 22, 10);
  }

  /** The stored tables are not symmetric: with c = (i,j,k), i >= 1, j >= 1, the chunk
      n = (i-1,j,k) lists c (in slot 10), while c does not list n. */
  lemma AdjacencyAsymmetric(c: Int3, counts: Int3)
    requires InGrid(c, counts) && c.x >= 1 && c.y >= 1
    ensures var n := Int3(c.x - 1, c.y, c.z);
      InGrid(n, counts) && Some(c) in AdjTable(n, counts) && Some(n) !in AdjTable(c, counts)
  {
    var n := Int3(c.x - 1, c.y, c.z);
    LowerXNeighbourMissing(c, counts);
    Slot10Holds(n, counts);
    assert AdjTable(n, counts)[10] == Some(c);
  }

  /** A concrete instance: in a 2 x 2 x 1 grid, chunk (0,1,0) lists chunk (1,1,0), which
      does not list it back. */
  lemma AsymmetricExample()
    ensures Some(Int3(1, 1, 0)) in AdjTable(Int3(0, 1, 0), Int3(2, 2, 1))
    ensures Some(Int3(0, 1, 0)) !in AdjTable(Int3(1, 1, 0), Int3(2, 2, 1))
  {
    AdjacencyAsymmetric(Int3(1, 1, 0), Int3(2, 2, 1));
  }

  // ---------------------------------------------------------------------------
  // The intended layout: one slot per non-zero offset, 9*(ni+1) + 3*(nj+1) + (nk+1)
  // with the zero offset's position 13 skipped.

  function IntendedSlot(o: Int3): int
  {
    if Position(o) < 13 then Position(o) else Position(o) - 1
  }

  function IntendedEntry(c: Int3, counts: Int3, s: int): Option<Int3>
    requires 0 <= s < 26
  {
    var n := Shift(c, OffsetAt(if s < 13 then s else s + 1));
    if InGrid(n, counts) then Some(n) else None
  }

  function IntendedTable(c: Int3, counts: Int3): seq<Option<Int3>>
  {
    seq(26, s requires 0 <= s < 26 => IntendedEntry(c, counts, s))
  }

  lemma IntendedSlotOf(c: Int3, counts: Int3, o: Int3)
    requires IsOffset(o) && o != Int3(0, 0, 0)
    ensures 0 <= IntendedSlot(o) < 26
    ensures IntendedEntry(c, counts, IntendedSlot(o)) == if InGrid(Shift(c, o), counts) then Some(Shift(c, o)) else None
  {
    OffsetAtPosition(o);
    var s := IntendedSlot(o);
    assert (if s < 13 then s else s + 1) == Position(o);
  }

  lemma IntendedEntrySound(c: Int3, counts: Int3, s: int)
    requires 0 <= s < 26
    ensures IntendedEntry(c, counts, s).Some? ==>
      var n := IntendedEntry(c, counts, s).value;
      InGrid(n, counts) && IsOffset(Diff(n, c)) && n != c && IntendedSlot(Diff(n, c)) == s
  {
    var q := if s < 13 then s else s + 1;
    PositionOfOffsetAt(q);
    assert Diff(Shift(c, OffsetAt(q)), c) == OffsetAt(q);
  }

  /** In the intended layout every in-grid neighbour has its own slot, and every non-NULL
      slot holds an in-grid neighbour other than the chunk itself. */
  lemma IntendedTableComplete(c: Int3, counts: Int3)
    ensures forall o | IsOffset(o) && o != Int3(0, 0, 0) ::
      0 <= IntendedSlot(o) < 26 &&
      IntendedTable(c, counts)[IntendedSlot(o)] == (if InGrid(Shift(c, o), counts) then Some(Shift(c, o)) else None)
    ensures forall s | 0 <= s < 26 && IntendedTable(c, counts)[s].Some? ::
      var n := IntendedTable(c, counts)[s].value;
      InGrid(n, counts) && IsOffset(Diff(n, c)) && n != c
  {
    forall o | IsOffset(o) && o != Int3(0, 0, 0)
      ensures 0 <= IntendedSlot(o) < 26 &&
        IntendedTable(c, counts)[IntendedSlot(o)] == (if InGrid(Shift(c, o), counts) then Some(Shift(c, o)) else None)
    {
      IntendedSlotOf(c, counts, o);
    }
    forall s | 0 <= s < 26
      ensures IntendedTable(c, counts)[s].Some? ==>
        var n := IntendedTable(c, counts)[s].value;
        InGrid(n, counts) && IsOffset(Diff(n, c)) && n != c
    {
      IntendedEntrySound(c, counts, s);
    }
  }

  /** The intended layout is symmetric: n is listed by c exactly when c is listed by n. */
  lemma IntendedTableSymmetric(c: Int3, n: Int3, counts: Int3)
    requires InGrid(c, counts) && InGrid(n, counts)
    ensures Some(n) in IntendedTable(c, counts) <==> Some(c) in IntendedTable(n, counts)
  {
    if Some(n) in IntendedTable(c, counts) {
      IntendedListsBack(c, n, counts);
    }
    if Some(c) in IntendedTable(n, counts) {
      IntendedListsBack(n, c, counts);
    }
  }

  lemma IntendedListsBack(c: Int3, n: Int3, counts: Int3)
    requires InGrid(c, counts) && Some(n) in IntendedTable(c, counts)
    ensures Some(c) in IntendedTable(n, counts)
  {
    var s :| 0 <= s < 26 && IntendedTable(c, counts)[s] == Some(n);
    IntendedEntrySound(c, counts, s);
    var back := Diff(c, n);
    assert Shift(n, back) == c;
    IntendedSlotOf(n, counts, back);
    assert IntendedTable(n, counts)[IntendedSlot(back)] == Some(c);
  }

  // ---------------------------------------------------------------------------
  // What the neighbour loops of the pressure passes rely on.

  /** A table the neighbour loops can follow: 26 slots, each NULL or naming an in-grid
      chunk adjacent to c and other than c. */
  predicate TableSound(c: Int3, counts: Int3, adj: seq<Option<Int3>>)
  {
    |adj| == 26 &&
    forall s | 0 <= s < 26 && adj[s].Some? ::
      InGrid(adj[s].value, counts) && IsOffset(Diff(adj[s].value, c)) && adj[s].value != c
  }

  /** The table as written and the intended table are both sound, so whatever holds of
      the passes under `TableSound` holds under either layout. */
  lemma TablesSound(c: Int3, counts: Int3)
    ensures TableSound(c, counts, AdjTable(c, counts))
    ensures TableSound(c, counts, IntendedTable(c, counts))
  {
    AdjTableSound(c, counts);
    IntendedTableComplete(c, counts);
  }
}
