/** A list of strings packed into one buffer
    (rd-interface/src/config/compact_vec_string.rs). A character stands for one byte of
    the UTF-8 text. */
module PackedStrings {
  import opened Outcomes
  import NetConfig

  /** `index[i]` is where string i starts; it ends where the next one starts. */
  datatype Packed = Packed(underlying: string, index: seq<nat>)

  const EMPTY: Packed := Packed("", [])

  ghost predicate WellFormed(p: Packed) {
    && (p.index == [] ==> p.underlying == "")
    && (p.index != [] ==> p.index[0] == 0)
    && (forall i, j :: 0 <= i < j < |p.index| ==> p.index[i] <= p.index[j])
    && (forall i :: 0 <= i < |p.index| ==> p.index[i] <= |p.underlying|)
  }

  function Pushed(p: Packed, s: string): Packed {
    Packed(p.underlying + s, p.index + [|p.underlying|])
  }

  function Popped(p: Packed): Packed
    requires p.index != [] ==> p.index[|p.index| - 1] <= |p.underlying|
  {
    if p.index == [] then p
    else Packed(p.underlying[..p.index[|p.index| - 1]], p.index[..|p.index| - 1])
  }

  /** The list of strings a packed list stands for. */
  ghost function Strings(p: Packed): (r: seq<string>)
    requires WellFormed(p)
    ensures |r| == |p.index|
    decreases |p.index|
  {
    if p.index == [] then []
    else
      PoppedWellFormed(p);
      Strings(Popped(p)) + [p.underlying[p.index[|p.index| - 1]..]]
  }

  lemma PoppedWellFormed(p: Packed)
    requires WellFormed(p)
    ensures WellFormed(Popped(p))
  {
    if |p.index| == 1 { assert Popped(p).underlying == ""; }
  }

  lemma PushedWellFormed(p: Packed, s: string)
    requires WellFormed(p)
    ensures WellFormed(Pushed(p, s)) && Popped(Pushed(p, s)) == p
  {
    var q := Pushed(p, s);
    assert q.underlying[..|p.underlying|] == p.underlying && q.index[..|p.index|] == p.index;
  }

  lemma PushAdds(p: Packed, s: string)
    requires WellFormed(p)
    ensures WellFormed(Pushed(p, s)) && Strings(Pushed(p, s)) == Strings(p) + [s]
  {
    PushedWellFormed(p, s);
    assert (p.underlying + s)[|p.underlying|..] == s;
  }

  lemma PopRemoves(p: Packed)
    requires WellFormed(p)
    ensures WellFormed(Popped(p))
    ensures Strings(Popped(p)) == if Strings(p) == [] then [] else Strings(p)[..|Strings(p)| - 1]
  {
    PoppedWellFormed(p);
  }

  /** Pop undoes push, and pushing the last string back undoes pop. */
  lemma PushPop(p: Packed, s: string)
    requires WellFormed(p)
    ensures Popped(Pushed(p, s)) == p
    ensures p.index != [] ==> Pushed(Popped(p), Strings(p)[|p.index| - 1]) == p
  {
    PushedWellFormed(p, s);
    if p.index != [] {
      var n := |p.index| - 1;
      assert p.underlying == p.underlying[..p.index[n]] + p.underlying[p.index[n]..];
      assert p.index == p.index[..n] + [p.index[n]];
    }
  }

  function End(p: Packed, i: nat): nat
    requires i < |p.index|
  {
    if i + 1 < |p.index| then p.index[i + 1] else |p.underlying|
  }

  /** String i lies between its own start and the next one. */
  lemma {:induction false} StringAt(p: Packed, i: nat)
    requires WellFormed(p) && i < |p.index|
    ensures p.index[i] <= End(p, i) <= |p.underlying|
    ensures Strings(p)[i] == p.underlying[p.index[i]..End(p, i)]
    decreases |p.index|
  {
    if i + 1 < |p.index| {
      assert p.index[i] <= p.index[i + 1];
      PoppedWellFormed(p);
      StringAt(Popped(p), i);
      var q := Popped(p);
      assert End(q, i) == End(p, i);
      assert q.underlying[q.index[i]..End(q, i)] == p.underlying[p.index[i]..End(p, i)];
    }
  }

  /** Derived equality of the representation is equality of the lists. */
  lemma {:induction false} EqualIffSameStrings(p: Packed, q: Packed)
    requires WellFormed(p) && WellFormed(q)
    ensures p == q <==> Strings(p) == Strings(q)
    decreases |p.index|
  {
    if Strings(p) == Strings(q) && p.index != [] {
      var n := |p.index| - 1;
      PopRemoves(p);
      PopRemoves(q);
      EqualIffSameStrings(Popped(p), Popped(q));
      PushPop(p, "");
      PushPop(q, "");
      assert Strings(p)[n] == Strings(q)[n];
    }
  }

  // ------------------------------------------------------------ any sequence of calls

  datatype Op = Push(s: string) | Pop | Extend(ss: seq<string>)

  function PushedAll(p: Packed, ss: seq<string>): Packed
    decreases |ss|
  {
    if ss == [] then p else PushedAll(Pushed(p, ss[0]), ss[1..])
  }

  lemma {:induction false} ExtendAdds(p: Packed, ss: seq<string>)
    requires WellFormed(p)
    ensures WellFormed(PushedAll(p, ss)) && Strings(PushedAll(p, ss)) == Strings(p) + ss
    decreases |ss|
  {
    if ss == [] {
      assert Strings(p) + ss == Strings(p);
    } else {
      PushAdds(p, ss[0]);
      ExtendAdds(Pushed(p, ss[0]), ss[1..]);
      assert Strings(p) + ss == Strings(p) + [ss[0]] + ss[1..];
    }
  }

  /** What a list of strings does under one call. */
  function OnList(l: seq<string>, op: Op): seq<string> {
    match op
    case Push(s) => l + [s]
    case Pop => if l == [] then [] else l[..|l| - 1]
    case Extend(ss) => l + ss
  }

  function RunList(l: seq<string>, ops: seq<Op>): seq<string> {
    if ops == [] then l else OnList(RunList(l, ops[..|ops| - 1]), ops[|ops| - 1])
  }

  ghost function RunPacked(p: Packed, ops: seq<Op>): (r: Packed)
    requires WellFormed(p)
    ensures WellFormed(r)
  {
    if ops == [] then p
    else
      var q := RunPacked(p, ops[..|ops| - 1]);
      match ops[|ops| - 1]
      case Push(s) => PushAdds(q, s); Pushed(q, s)
      case Pop => PopRemoves(q); Popped(q)
      case Extend(ss) => ExtendAdds(q, ss); PushedAll(q, ss)
  }

  /** Under any calls the packed list is a list of strings. */
  lemma {:induction false} RefinesList(p: Packed, ops: seq<Op>)
    requires WellFormed(p)
    ensures Strings(RunPacked(p, ops)) == RunList(Strings(p), ops)
  {
    if ops != [] {
      RefinesList(p, ops[..|ops| - 1]);
      var q := RunPacked(p, ops[..|ops| - 1]);
      match ops[|ops| - 1]
      case Push(s) => PushAdds(q, s);
      case Pop => PopRemoves(q);
      case Extend(ss) => ExtendAdds(q, ss);
    }
  }

  // ------------------------------------------------------------ serde

  datatype Json = Str(s: string) | Arr(items: seq<Json>) | Other

  ghost function Serialized(p: Packed): Json
    requires WellFormed(p)
  {
    if |p.index| == 1 then Str(Strings(p)[0]) else Arr(seq(|p.index|, i requires 0 <= i < |p.index| => Str(Strings(p)[i])))
  }

  function PushItems(p: Packed, items: seq<Json>): Option<Packed>
    decreases |items|
  {
    if items == [] then Some(p)
    else if items[0].Str? then PushItems(Pushed(p, items[0].s), items[1..])
    else None
  }

  function Deserialized(j: Json): Option<Packed> {
    match j
    case Str(s) => Some(Pushed(EMPTY, s))
    case Arr(items) => PushItems(EMPTY, items)
    case Other => None
  }

  lemma {:induction false} PushItemsAdds(p: Packed, items: seq<Json>, ss: seq<string>)
    requires WellFormed(p) && |items| == |ss| && forall i :: 0 <= i < |ss| ==> items[i] == Str(ss[i])
    ensures var r := PushItems(p, items);
            r.Some? && WellFormed(r.value) && Strings(r.value) == Strings(p) + ss
    decreases |items|
  {
    if items == [] {
      assert Strings(p) + ss == Strings(p);
    } else {
      PushAdds(p, ss[0]);
      PushItemsAdds(Pushed(p, ss[0]), items[1..], ss[1..]);
      FirstThenRest(Strings(p), ss);
    }
  }

  lemma FirstThenRest(l: seq<string>, ss: seq<string>)
    requires ss != []
    ensures l + ss == l + [ss[0]] + ss[1..]
  {
  }

  /** `j` is an array of these strings. */
  ghost predicate IsArray(j: Json, ss: seq<string>) {
    j.Arr? && |j.items| == |ss| && forall i :: 0 <= i < |ss| ==> j.items[i] == Str(ss[i])
  }

  /** One string is written bare, any other number of them as an array. */
  lemma SerializedForm(p: Packed, ss: seq<string>)
    requires WellFormed(p) && Strings(p) == ss
    ensures |ss| == 1 ==> Serialized(p) == Str(ss[0])
    ensures |ss| != 1 ==> IsArray(Serialized(p), ss)
  {
  }

  /** A bare string is read as a list of one, an array of strings as these, whatever their
      number. */
  lemma DeserializedForm(j: Json, ss: seq<string>)
    requires (|ss| == 1 && j == Str(ss[0])) || IsArray(j, ss)
    ensures var r := Deserialized(j);
            r.Some? && WellFormed(r.value) && Strings(r.value) == ss
  {
    if j.Str? {
      PushAdds(EMPTY, ss[0]);
    } else {
      PushItemsAdds(EMPTY, j.items, ss);
      assert Strings(EMPTY) + ss == ss;
    }
  }

  /** Serialize then deserialize is the identity. */
  lemma SerdeRoundTrip(p: Packed)
    requires WellFormed(p)
    ensures Deserialized(Serialized(p)) == Some(p)
  {
    SerializedForm(p, Strings(p));
    DeserializedForm(Serialized(p), Strings(p));
    EqualIffSameStrings(Deserialized(Serialized(p)).value, p);
  }

  /** A value with anything but strings in it is refused. */
  lemma {:induction false} RefusedIffNotStrings(p: Packed, items: seq<Json>)
    ensures PushItems(p, items).Some? <==> forall i :: 0 <= i < |items| ==> items[i].Str?
    decreases |items|
  {
    if items != [] && items[0].Str? {
      RefusedIffNotStrings(Pushed(p, items[0].s), items[1..]);
      assert items == [items[0]] + items[1..];
    }
  }

  // ------------------------------------------------------------ in place

  class CompactVecString {
    var underlying: string
    var index: seq<nat>

    ghost predicate Valid()
      reads this
    {
      WellFormed(Packed(underlying, index))
    }

    ghost function Contents(): seq<string>
      reads this
      requires Valid()
    {
      Strings(Packed(underlying, index))
    }

    constructor ()
      ensures Valid() && Contents() == []
    {
      underlying, index := "", [];
    }

    method Push(s: string)
      requires Valid()
      modifies this
      ensures Valid() && Contents() == old(Contents()) + [s]
    {
      PushAdds(Packed(underlying, index), s);
      var len := |underlying|;
      underlying := underlying + s;
      index := index + [len];
    }

    method Pop()
      requires Valid()
      modifies this
      ensures Valid() && Contents() == old(OnList(Contents(), Op.Pop))
    {
      PopRemoves(Packed(underlying, index));
      if index != [] {
        var i := index[|index| - 1];
        index := index[..|index| - 1];
        underlying := underlying[..i];
      }
    }

    function Get(i: nat): (r: Option<string>)
      requires Valid()
      reads this
      ensures r == if i < |Contents()| then Some(Contents()[i]) else None
    {
      if i >= |index| then None
      else
        StringAt(Packed(underlying, index), i);
        var end := if i + 1 < |index| then index[i + 1] else |underlying|;
        Some(underlying[index[i]..end])
    }

    /** Pushes what another packed list iterates over. */
    method Extend(other: CompactVecString)
      requires Valid() && other.Valid() && other != this
      modifies this
      ensures Valid() && Contents() == old(Contents() + other.Contents())
    {
      var i := 0;
      var next := other.Get(i);
      while next.Some?
        invariant Valid() && i <= |other.Contents()| && next == other.Get(i)
        invariant Contents() == old(Contents()) + other.Contents()[..i]
        decreases |other.Contents()| - i
      {
        Push(next.value);
        assert other.Contents()[..i + 1] == other.Contents()[..i] + [next.value];
        i := i + 1;
        next := other.Get(i);
      }
      assert other.Contents()[..i] == other.Contents();
    }

    /** Collecting the iterator. */
    method Collect() returns (r: seq<string>)
      requires Valid()
      ensures r == Contents()
    {
      r := [];
      var i := 0;
      var next := Get(i);
      while next.Some?
        invariant i <= |Contents()| && next == Get(i) && r == Contents()[..i]
        decreases |Contents()| - i
      {
        r := r + [next.value];
        i := i + 1;
        next := Get(i);
      }
    }

    /** Used to name inline nets: the strings with a separator between them. */
    method Join(separator: string) returns (r: string)
      requires Valid()
      ensures r == NetConfig.Join(Contents(), separator)
    {
      var parts := Collect();
      r := NetConfig.Join(parts, separator);
    }
  }
}
