/** Rebuilding the whole dynamic list agrees with the obvious local edit of the old one. */
module LocalEdits {
  import opened Lists
  import opened Partitions

  /** Where a stable sort by base puts a process appended to a sorted list. */
  function InsertByBase(procs: seq<Proc>, p: Proc): seq<Proc> {
    if procs == [] || p.base < procs[0].base then [p] + procs
    else [procs[0]] + InsertByBase(procs[1..], p)
  }

  /** An occupied piece at the low end of the hole, and the remainder if there is one. */
  function Carve(p: Proc, hole: Partition): seq<Partition> {
    [Occupied(p)] + if p.limite < hole.limite then [Free(p.limite, hole.limite)] else []
  }

  function Replace<T>(s: seq<T>, i: nat, piece: seq<T>): seq<T>
    requires i < |s|
  {
    s[..i] + piece + s[i + 1..]
  }

  predicate EndsFree(parts: seq<Partition>) {
    parts != [] && parts[|parts| - 1].isFree
  }

  predicate StartsFree(parts: seq<Partition>) {
    parts != [] && parts[0].isFree
  }

  /** A free partition, unless there is nothing in it. */
  function FreePiece(base: nat, limite: nat): seq<Partition> {
    if base < limite then [Free(base, limite)] else []
  }

  /** One partition freed between its neighbours, absorbing those that are free. */
  function Absorb(left: seq<Partition>, p: Partition, right: seq<Partition>): seq<Partition> {
    (if EndsFree(left) then left[..|left| - 1] else left)
    + FreePiece(if EndsFree(left) then left[|left| - 1].base else p.base,
                if StartsFree(right) then right[0].limite else p.limite)
    + (if StartsFree(right) then right[1..] else right)
  }

  /** Partition i freed and merged with whichever neighbours are free. */
  function FreeAndMerge(parts: seq<Partition>, i: nat): seq<Partition>
    requires i < |parts|
  {
    Absorb(parts[..i], parts[i], parts[i + 1..])
  }

  /** Where the partition of process i stands in the built list. */
  function PlaceOf(procs: seq<Proc>, cur: nat, i: nat): nat
    requires i < |procs|
  {
    (if cur < procs[0].base then 1 else 0)
    + if i == 0 then 0 else 1 + PlaceOf(procs[1..], procs[0].limite, i - 1)
  }

  /** The gap in front of the first process, if any. */
  function Gap(procs: seq<Proc>, cur: nat): seq<Partition>
    requires procs != []
  {
    if cur < procs[0].base then [Free(cur, procs[0].base)] else []
  }

  lemma {:induction false} BuildCons(procs: seq<Proc>, cur: nat, tam: nat)
    requires procs != []
    ensures BuildFrom(procs, cur, tam) ==
      Gap(procs, cur) + [Occupied(procs[0])] + BuildFrom(procs[1..], procs[0].limite, tam)
  {
  }

  lemma {:induction false} PlaceHolds(procs: seq<Proc>, cur: nat, tam: nat, i: nat)
    requires i < |procs|
    ensures PlaceOf(procs, cur, i) < |BuildFrom(procs, cur, tam)|
    ensures BuildFrom(procs, cur, tam)[PlaceOf(procs, cur, i)] == Occupied(procs[i])
  {
    if i > 0 {
      PlaceHolds(procs[1..], procs[0].limite, tam, i - 1);
    }
  }

  lemma {:induction false} HolesStartLater(procs: seq<Proc>, cur: nat, tam: nat, h: nat)
    requires LaidOut(procs, cur, tam) && Sized(procs) && h < |BuildFrom(procs, cur, tam)|
    ensures cur <= BuildFrom(procs, cur, tam)[h].base && BuildFrom(procs, cur, tam)[h].limite <= tam
  {
    if procs != [] {
      var off := |Gap(procs, cur)| + 1;
      BuildCons(procs, cur, tam);
      TailSized(procs);
      if h >= off {
        HolesStartLater(procs[1..], procs[0].limite, tam, h - off);
      } else {
        LaidOutEnds(procs[1..], procs[0].limite, tam);
      }
    }
  }

  lemma TailSized(procs: seq<Proc>)
    requires procs != [] && Sized(procs)
    ensures Sized(procs[1..]) && procs[0].base <= procs[0].limite
  {
  }

  lemma {:induction false} LaidOutEnds(procs: seq<Proc>, cur: nat, tam: nat)
    requires LaidOut(procs, cur, tam) && Sized(procs)
    ensures cur <= tam
  {
    if procs != [] {
      TailSized(procs);
      LaidOutEnds(procs[1..], procs[0].limite, tam);
    }
  }

  lemma {:induction false} LaidOutBelow(procs: seq<Proc>, cur: nat, tam: nat, i: nat)
    requires LaidOut(procs, cur, tam) && Sized(procs) && i < |procs|
    ensures procs[i].limite <= tam
  {
    TailSized(procs);
    LaidOutEnds(procs[1..], procs[0].limite, tam);
    if i > 0 {
      LaidOutBelow(procs[1..], procs[0].limite, tam, i - 1);
    }
  }

  lemma ReplaceInTail<T>(head: seq<T>, tail: seq<T>, i: nat, piece: seq<T>)
    requires |head| <= i < |head| + |tail|
    ensures Replace(head + tail, i, piece) == head + Replace(tail, i - |head|, piece)
  {
    var s := head + tail;
    assert s[..i] == head + tail[..i - |head|];
    assert s[i + 1..] == tail[i + 1 - |head|..];
  }

  /** Creating a process in hole h: the rebuilt list is the old one with the hole carved up. */
  lemma {:induction false} CreateCarvesTheHole(procs: seq<Proc>, cur: nat, tam: nat, h: nat, p: Proc)
    requires LaidOut(procs, cur, tam) && Sized(procs) && h < |BuildFrom(procs, cur, tam)|
    requires var hole := BuildFrom(procs, cur, tam)[h];
      hole.isFree && p.base == hole.base && p.base <= p.limite <= hole.limite
    ensures BuildFrom(InsertByBase(procs, p), cur, tam)
      == Replace(BuildFrom(procs, cur, tam), h, Carve(p, BuildFrom(procs, cur, tam)[h]))
    ensures LaidOut(InsertByBase(procs, p), cur, tam)
  {
    var parts := BuildFrom(procs, cur, tam);
    if procs == [] {
      assert InsertByBase(procs, p) == [p];
      assert [p][1..] == [];
      assert BuildFrom([p], cur, tam) == [Occupied(p)] + BuildFrom([], p.limite, tam);
    } else {
      BuildCons(procs, cur, tam);
      TailSized(procs);
      var rest := BuildFrom(procs[1..], procs[0].limite, tam);
      var off := |Gap(procs, cur)| + 1;
      if h < off {
        CarveFirstGap(procs, cur, tam, p);
      } else {
        HolesStartLater(procs[1..], procs[0].limite, tam, h - off);
        CreateCarvesTheHole(procs[1..], procs[0].limite, tam, h - off, p);
        var grown := InsertByBase(procs, p);
        assert grown[0] == procs[0] && grown[1..] == InsertByBase(procs[1..], p);
        BuildCons(grown, cur, tam);
        ReplaceInTail(Gap(procs, cur) + [Occupied(procs[0])], rest, h, Carve(p, parts[h]));
      }
    }
  }

  lemma {:induction false} CarveFirstGap(procs: seq<Proc>, cur: nat, tam: nat, p: Proc)
    requires LaidOut(procs, cur, tam) && Sized(procs) && procs != []
    requires cur < procs[0].base && p.base == cur && p.base <= p.limite <= procs[0].base
    ensures BuildFrom(InsertByBase(procs, p), cur, tam)
      == Replace(BuildFrom(procs, cur, tam), 0, Carve(p, Free(cur, procs[0].base)))
    ensures LaidOut(InsertByBase(procs, p), cur, tam)
  {
    var grown := InsertByBase(procs, p);
    assert grown == [p] + procs && grown[0] == p && grown[1..] == procs;
    BuildCons(grown, cur, tam);
    BuildCons(procs, cur, tam);
    BuildCons(procs, p.limite, tam);
    assert LaidOut(procs, p.limite, tam);
    var tail := [Occupied(procs[0])] + BuildFrom(procs[1..], procs[0].limite, tam);
    assert BuildFrom(procs, cur, tam)[1..] == tail;
    assert BuildFrom(procs, p.limite, tam) == Gap(procs, p.limite) + tail;
  }

  lemma AbsorbInTail(head: seq<Partition>, left: seq<Partition>, p: Partition, right: seq<Partition>)
    requires !EndsFree(head)
    ensures Absorb(head + left, p, right) == head + Absorb(left, p, right)
  {
    if left == [] {
      assert head + left == head;
    } else {
      assert (head + left)[|head + left| - 1] == left[|left| - 1];
      assert (head + left)[..|head + left| - 1] == head + left[..|left| - 1];
    }
  }

  lemma MergeInTail(head: seq<Partition>, tail: seq<Partition>, i: nat)
    requires !EndsFree(head) && i < |tail|
    ensures FreeAndMerge(head + tail, |head| + i) == head + FreeAndMerge(tail, i)
  {
    var s := head + tail;
    assert s[..|head| + i] == head + tail[..i];
    assert s[|head| + i + 1..] == tail[i + 1..];
    AbsorbInTail(head, tail[..i], tail[i], tail[i + 1..]);
  }

  lemma MergeAt(left: seq<Partition>, p: Partition, right: seq<Partition>)
    ensures FreeAndMerge(left + [p] + right, |left|) == Absorb(left, p, right)
  {
    var s := left + [p] + right;
    assert s[..|left|] == left && s[|left|] == p && s[|left| + 1..] == right;
  }

  lemma AbsorbGap(procs: seq<Proc>, cur: nat, right: seq<Partition>)
    requires procs != [] && cur <= procs[0].base
    ensures Absorb(Gap(procs, cur), Occupied(procs[0]), right)
      == FreePiece(cur, if StartsFree(right) then right[0].limite else procs[0].limite)
         + (if StartsFree(right) then right[1..] else right)
  {
    if cur < procs[0].base {
      assert Gap(procs, cur)[..0] == [];
    }
  }

  /** Starting the build earlier only stretches, or adds, the free piece at the front. */
  lemma {:induction false} BuildEarlier(procs: seq<Proc>, earlier: nat, cur: nat, tam: nat)
    requires LaidOut(procs, cur, tam) && Sized(procs) && earlier <= cur
    ensures var right := BuildFrom(procs, cur, tam);
      BuildFrom(procs, earlier, tam)
      == FreePiece(earlier, if StartsFree(right) then right[0].limite else cur)
        + (if StartsFree(right) then right[1..] else right)
  {
    LaidOutEnds(procs, cur, tam);
    if procs != [] {
      hide BuildFrom;
      BuildCons(procs, cur, tam);
      BuildCons(procs, earlier, tam);
      var tail := BuildFrom(procs[1..], procs[0].limite, tam);
      if cur < procs[0].base {
        assert (Gap(procs, cur) + [Occupied(procs[0])] + tail)[1..] == [Occupied(procs[0])] + tail;
      }
    }
  }

  lemma {:induction false} DeleteFirst(procs: seq<Proc>, cur: nat, tam: nat)
    requires LaidOut(procs, cur, tam) && Sized(procs) && procs != []
    ensures BuildFrom(procs[1..], cur, tam)
      == Absorb(Gap(procs, cur), Occupied(procs[0]), BuildFrom(procs[1..], procs[0].limite, tam))
    ensures LaidOut(procs[1..], cur, tam)
  {
    hide BuildFrom, Absorb;
    TailSized(procs);
    AbsorbGap(procs, cur, BuildFrom(procs[1..], procs[0].limite, tam));
    BuildEarlier(procs[1..], cur, procs[0].limite, tam);
    StillLaidOut(procs[1..], cur, procs[0].limite, tam);
  }

  lemma {:induction false} StillLaidOut(procs: seq<Proc>, earlier: nat, cur: nat, tam: nat)
    requires LaidOut(procs, cur, tam) && earlier <= cur
    ensures LaidOut(procs, earlier, tam)
  {
  }

  /** Deleting process i: the rebuilt list is the old one with its partition freed and merged. */
  lemma {:induction false} DeleteFreesAndMerges(procs: seq<Proc>, cur: nat, tam: nat, i: nat)
    requires LaidOut(procs, cur, tam) && Sized(procs) && i < |procs|
    ensures PlaceOf(procs, cur, i) < |BuildFrom(procs, cur, tam)|
    ensures BuildFrom(RemoveAt(procs, i), cur, tam)
      == FreeAndMerge(BuildFrom(procs, cur, tam), PlaceOf(procs, cur, i))
    ensures LaidOut(RemoveAt(procs, i), cur, tam)
  {
    hide FreeAndMerge, Absorb;
    PlaceHolds(procs, cur, tam, i);
    BuildCons(procs, cur, tam);
    TailSized(procs);
    var rest := BuildFrom(procs[1..], procs[0].limite, tam);
    if i == 0 {
      assert RemoveAt(procs, 0) == procs[1..];
      DeleteFirst(procs, cur, tam);
      MergeAt(Gap(procs, cur), Occupied(procs[0]), rest);
    } else {
      var left := RemoveAt(procs, i);
      assert left[0] == procs[0] && left[1..] == RemoveAt(procs[1..], i - 1);
      DeleteFreesAndMerges(procs[1..], procs[0].limite, tam, i - 1);
      BuildCons(left, cur, tam);
      MergeInTail(Gap(procs, cur) + [Occupied(procs[0])], rest, PlaceOf(procs[1..], procs[0].limite, i - 1));
    }
  }
}
