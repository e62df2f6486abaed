/** unique.c: drops a frame whose source was last heard with the same sequence number. */
module Unique {
  import opened Bytes
  import Packet

  datatype Entry = Entry(src: nat, dsn: u8)

  // ---------- the list as the source keeps it, newest source first ----------

  function Find(l: seq<Entry>, src: nat): (i: nat)
    ensures i <= |l| && (i < |l| ==> l[i].src == src)
    ensures forall j :: 0 <= j < i ==> l[j].src != src
  {
    if l == [] || l[0].src == src then 0 else 1 + Find(l[1..], src)
  }

  /** One received frame: the list afterwards and whether the frame goes up. `alloc` says whether
      memory for a new entry can be had. */
  function OnRx(l: seq<Entry>, src: nat, dsn: u8, alloc: bool): (seq<Entry>, bool)
  {
    var i := Find(l, src);
    if i < |l| then (l[i := Entry(src, dsn)], l[i].dsn != dsn)
    else (if alloc then [Entry(src, dsn)] + l else l, true)
  }

  // ---------- the map it stands for ----------

  predicate Distinct(l: seq<Entry>)
  {
    forall i, j :: 0 <= i < j < |l| ==> l[i].src != l[j].src
  }

  function Table(l: seq<Entry>): (m: map<nat, u8>)
    ensures forall s :: s in m <==> exists i :: 0 <= i < |l| && l[i].src == s
  {
    if l == [] then map[] else Table(l[1..])[l[0].src := l[0].dsn]
  }

  lemma {:induction false} TableAt(l: seq<Entry>, i: nat)
    requires Distinct(l) && i < |l|
    ensures l[i].src in Table(l) && Table(l)[l[i].src] == l[i].dsn
  {
    if i > 0 {
      assert l[1..][i - 1] == l[i];
      TableAt(l[1..], i - 1);
    }
  }

  lemma {:induction false} TableUpdate(l: seq<Entry>, i: nat, dsn: u8)
    requires Distinct(l) && i < |l|
    ensures Table(l[i := Entry(l[i].src, dsn)]) == Table(l)[l[i].src := dsn]
  {
    var l' := l[i := Entry(l[i].src, dsn)];
    if i == 0 {
      assert l'[1..] == l[1..];
    } else {
      assert l'[1..] == l[1..][i - 1 := Entry(l[i].src, dsn)];
      TableUpdate(l[1..], i - 1, dsn);
    }
  }

  /** The list refines a map from source to last sequence number: it never holds two entries for one
      source, a frame is dropped exactly when the map holds its number, and (memory permitting) the
      map is updated at that source alone. */
  lemma RefinesMap(l: seq<Entry>, src: nat, dsn: u8, alloc: bool)
    requires Distinct(l)
    ensures var (l', up) := OnRx(l, src, dsn, alloc); var m := Table(l);
            && Distinct(l')
            && (up <==> src !in m || m[src] != dsn)
            && Table(l') == (if src in m || alloc then m[src := dsn] else m)
  {
    var i := Find(l, src);
    if i < |l| {
      TableAt(l, i);
      TableUpdate(l, i, dsn);
    } else if alloc {
      assert ([Entry(src, dsn)] + l)[1..] == l;
    }
  }

  /** The key is the address as a number, so two nodes whose addresses are equal as numbers, one short and
      one extended, or on two PANs, share an entry: the second of two frames with one sequence number
      is dropped, though it comes from another node. */
  lemma SharedEntry(l: seq<Entry>, h: Packet.Header, g: Packet.Header, p: seq<u8>, q: seq<u8>, alloc: bool)
    requires Distinct(l) && h.Valid() && g.Valid() && h.src.Value() == g.src.Value() && h.dsn == g.dsn
    ensures var x, y := h.Encode() + p, g.Encode() + q;
            && Packet.HasSrc(x) && Packet.HasSrc(y)
            && !OnRx(OnRx(l, Packet.GetSrc(x), Packet.Dsn(x), true).0, Packet.GetSrc(y), Packet.Dsn(y), alloc).1
  {
    hide OnRx, Packet.GetSrc, Packet.HasSrc, Packet.Dsn;
    Packet.SrcRoundTrip(h, p);
    Packet.SrcRoundTrip(g, q);
    var src := h.src.Value();
    RefinesMap(l, src, h.dsn, true);
    RefinesMap(OnRx(l, src, h.dsn, true).0, src, h.dsn, alloc);
  }

  // ---------- whole input streams ----------

  datatype Input = Input(src: nat, dsn: u8, alloc: bool)

  /** The list after the first k frames of a stream into an empty filter. */
  function After(input: seq<Input>, k: nat): seq<Entry>
    requires k <= |input|
  {
    if k == 0 then [] else
      var x := input[k - 1];
      OnRx(After(input, k - 1), x.src, x.dsn, x.alloc).0
  }

  /** Whether frame k of the stream goes up. */
  predicate GoesUp(input: seq<Input>, k: nat)
    requires k < |input|
  {
    OnRx(After(input, k), input[k].src, input[k].dsn, input[k].alloc).1
  }

  /** The last of the first k frames that came from src, or -1. */
  function Previous(input: seq<Input>, k: nat, src: nat): (p: int)
    requires k <= |input|
    ensures -1 <= p < k && (p >= 0 ==> input[p].src == src)
    ensures forall j :: p < j < k ==> input[j].src != src
  {
    if k == 0 then -1 else if input[k - 1].src == src then k - 1 else Previous(input, k - 1, src)
  }

  lemma {:induction false} LastHeard(input: seq<Input>, k: nat, src: nat)
    requires k <= |input|
    ensures var m := Table(After(input, k)); var p := Previous(input, k, src);
            && Distinct(After(input, k))
            && (src in m ==> p >= 0 && m[src] == input[p].dsn)
            && ((forall j :: 0 <= j < k ==> input[j].alloc) && p >= 0 ==> src in m)
  {
    hide OnRx, Table;
    if k > 0 {
      LastHeard(input, k - 1, src);
      var x := input[k - 1];
      RefinesMap(After(input, k - 1), x.src, x.dsn, x.alloc);
    }
  }

  /** Over any stream into an empty filter the output is the input with per-source consecutive equal
      sequence numbers collapsed; and even when allocations fail, a dropped frame always repeats the
      number of the previous frame from its source. */
  lemma CollapsesRepeats(input: seq<Input>, k: nat)
    requires k < |input|
    ensures var p := Previous(input, k, input[k].src);
            && (!GoesUp(input, k) ==> p >= 0 && input[p].dsn == input[k].dsn)
            && ((forall j :: 0 <= j < k ==> input[j].alloc) ==>
                  (GoesUp(input, k) <==> p < 0 || input[p].dsn != input[k].dsn))
  {
    LastHeard(input, k, input[k].src);
    RefinesMap(After(input, k), input[k].src, input[k].dsn, input[k].alloc);
  }

  // ---------- the linked list ----------

  class Node {
    const src: nat
    var dsn: u8
    var next: Node?

    constructor (src: nat, dsn: u8, next: Node?)
      ensures this.src == src && this.dsn == dsn && this.next == next
    {
      this.src, this.dsn, this.next := src, dsn, next;
    }
  }

  class Layer {
    var head: Node?
    ghost var spine: seq<Node>

    ghost predicate Valid()
      reads this, spine
    {
      && head == (if spine == [] then null else spine[0])
      && (forall i {:trigger spine[i].next} :: 0 <= i < |spine| ==>
            spine[i].next == (if i + 1 < |spine| then spine[i + 1] else null))
      && (forall i, j :: 0 <= i < j < |spine| ==> spine[i] != spine[j])
    }

    ghost function View(): (l: seq<Entry>)
      reads this, spine
      ensures |l| == |spine|
    {
      seq(|spine|, i requires 0 <= i < |spine| reads this, spine => Entry(spine[i].src, spine[i].dsn))
    }

    constructor ()
      ensures Valid() && View() == []
    {
      head, spine := null, [];
    }

    /** cc2520_unique_rx_done: walk the list to the source's node, update or insert in place. */
    method RxDone(src: nat, dsn: u8, alloc: bool) returns (up: bool)
      requires Valid()
      modifies this, spine
      ensures Valid() && (View(), up) == OnRx(old(View()), src, dsn, alloc)
      ensures fresh(set n | n in spine && n !in old(spine))
    {
      var found, drop := false, false;
      var tmp := head;
      ghost var i := 0;
      ghost var l := View();
      while tmp != null && !found
        invariant 0 <= i <= |spine| && Valid() && spine == old(spine) && head == old(head)
        invariant !found ==> tmp == (if i < |spine| then spine[i] else null) && View() == l && !drop
        invariant forall j :: 0 <= j < i ==> l[j].src != src
        invariant found ==> i < |spine| && l[i].src == src && drop == (l[i].dsn == dsn)
        invariant found ==> View() == l[i := Entry(src, dsn)]
        decreases |spine| - i, !found
      {
        if tmp.src == src {
          found := true;
          if tmp.dsn != dsn {
            tmp.dsn := dsn;
          } else {
            drop := true;
          }
        } else {
          tmp := tmp.next;
          i := i + 1;
        }
      }
      FindIs(l, src, i);
      if !found && alloc {
        head := new Node(src, dsn, head);
        spine := [head] + spine;
        assert View() == [Entry(src, dsn)] + l;
      }
      up := !drop;
    }
  }

  lemma {:induction false} FindIs(l: seq<Entry>, src: nat, i: nat)
    requires i <= |l| && (i < |l| ==> l[i].src == src)
    requires forall j :: 0 <= j < i ==> l[j].src != src
    ensures Find(l, src) == i
  {
    if i > 0 {
      assert l[0].src != src;
      FindIs(l[1..], src, i - 1);
    }
  }
}
