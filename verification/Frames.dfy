/** What travels on one port, and byte strings cut into pieces. */
module Frames {
  import opened Types

  type Bytes = seq<u8>

  datatype Frame =
    | DataFrame(buf: Bytes, first: bool, last: bool)
    | PortsFrame(ports: seq<nat>, first: bool, last: bool)
    | ReportFrame
    | FinishedFrame

  function Flatten<T>(parts: seq<seq<T>>): seq<T> {
    if parts == [] then [] else parts[0] + Flatten(parts[1..])
  }

  lemma {:induction false} FlattenConcat<T>(a: seq<seq<T>>, b: seq<seq<T>>)
    ensures Flatten(a + b) == Flatten(a) + Flatten(b)
  {
    if a == [] {
      assert a + b == b;
    } else {
      assert (a + b)[1..] == a[1..] + b;
      FlattenConcat(a[1..], b);
    }
  }

  lemma FlattenAppend<T>(a: seq<seq<T>>, x: seq<T>)
    ensures Flatten(a + [x]) == Flatten(a) + x
  {
    FlattenConcat(a, [x]);
    assert [x][1..] == [];
  }

  lemma FlattenOne<T>(x: seq<T>)
    ensures Flatten([x]) == x
  {
    assert [x] == [] + [x];
    FlattenAppend([], x);
  }

  /** One message in pieces: the flags mark its first and its last frame. */
  function DataFrames(bufs: seq<Bytes>, first: bool, last: bool): (fs: seq<Frame>)
    ensures |fs| == |bufs|
  {
    if bufs == [] then []
    else [DataFrame(bufs[0], first, last && |bufs| == 1)] + DataFrames(bufs[1..], false, last)
  }

  lemma {:induction false} DataFramesConcat(a: seq<Bytes>, b: seq<Bytes>, first: bool, last: bool)
    requires b != [] || !last
    ensures DataFrames(a + b, first, last) == DataFrames(a, first, false) + DataFrames(b, first && a == [], last)
  {
    if a == [] {
      assert a + b == b;
    } else {
      assert (a + b)[1..] == a[1..] + b;
      DataFramesConcat(a[1..], b, false, last);
    }
  }

  lemma DataFramesAppend(bufs: seq<Bytes>, buf: Bytes, first: bool, last: bool)
    ensures DataFrames(bufs + [buf], first, last)
            == DataFrames(bufs, first, false) + [DataFrame(buf, first && bufs == [], last)]
  {
    DataFramesConcat(bufs, [buf], first, last);
  }

  function PortFrames(groups: seq<seq<nat>>, first: bool, last: bool): (fs: seq<Frame>)
    ensures |fs| == |groups|
  {
    if groups == [] then []
    else [PortsFrame(groups[0], first, last && |groups| == 1)] + PortFrames(groups[1..], false, last)
  }

  lemma {:induction false} PortFramesConcat(a: seq<seq<nat>>, b: seq<seq<nat>>, first: bool, last: bool)
    requires b != [] || !last
    ensures PortFrames(a + b, first, last) == PortFrames(a, first, false) + PortFrames(b, first && a == [], last)
  {
    if a == [] {
      assert a + b == b;
    } else {
      assert (a + b)[1..] == a[1..] + b;
      PortFramesConcat(a[1..], b, false, last);
    }
  }
}
