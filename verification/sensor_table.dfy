/** The layout of a sensor list: runs ("blocks") of sensors in which every
    device of the block publishes every channel of the block. General facts
    about such lists: which topics they contain, when their topics are
    unique, and how many sensors each device has. */
module SensorTable {
  import opened Topics
  import opened StandardData

  /** A run of the sensor list: for each device in turn, one sensor per
      channel, the j-th channel carrying readings of the j-th category. */
  datatype Block = Block(devices: seq<string>, channels: seq<string>, types: seq<Type>)

  predicate Distinct<T(==)>(xs: seq<T>) {
    forall i, j | 0 <= i < j < |xs| :: xs[i] != xs[j]
  }

  predicate WellFormed(b: Block) {
    |b.types| == |b.channels|
  }

  /** Devices and channels are unique and free of '/'. */
  predicate ValidBlock(b: Block) {
    && WellFormed(b)
    && Distinct(b.devices) && Distinct(b.channels)
    && (forall d | d in b.devices :: '/' !in d)
    && (forall c | c in b.channels :: '/' !in c)
  }

  /** Two blocks share no device or share no channel, so no topic. */
  predicate Apart(b1: Block, b2: Block) {
    || (forall d | d in b1.devices :: d !in b2.devices)
    || (forall c | c in b1.channels :: c !in b2.channels)
  }

  /** The sensors of one device in a block. */
  function Row(d: string, channels: seq<string>, types: seq<Type>): (r: seq<Sensor>)
    requires |types| == |channels|
    ensures |r| == |channels|
  {
    seq(|channels|, j requires 0 <= j < |channels| => Sensor(types[j], Join(d, channels[j])))
  }

  /** The sensors of a block, device by device. */
  function Expand(b: Block): (g: seq<Sensor>)
    requires WellFormed(b)
    ensures |g| == |b.devices| * |b.channels|
    decreases |b.devices|
  {
    if |b.devices| == 0 then []
    else Row(b.devices[0], b.channels, b.types) + Expand(b.(devices := b.devices[1..]))
  }

  /** The sensors of a sequence of blocks, block by block. */
  function ExpandAll(bs: seq<Block>): (g: seq<Sensor>)
    requires forall k | 0 <= k < |bs| :: WellFormed(bs[k])
  {
    if |bs| == 0 then [] else Expand(bs[0]) + ExpandAll(bs[1..])
  }

  /** A list cut in four consecutive pieces. */
  lemma SplitFour<T>(g: seq<T>, a: nat, b: nat, c: nat)
    requires a <= b <= c <= |g|
    ensures g == g[..a] + (g[a..b] + (g[b..c] + g[c..]))
  {
    assert g[a..] == g[a..b] + g[b..];
    assert g[b..] == g[b..c] + g[c..];
  }

  /** A list that has the sensor of device `d` and channel `j` at each
      position `j` is the row of `d`. */
  lemma RowIs(g: seq<Sensor>, d: string, channels: seq<string>, types: seq<Type>)
    requires |g| == |channels| == |types|
    requires forall j | 0 <= j < |g| :: g[j] == Sensor(types[j], Join(d, channels[j]))
    ensures g == Row(d, channels, types)
  {}

  /** A block with four devices expands to their four rows. */
  lemma ExpandFour(b: Block)
    requires WellFormed(b) && |b.devices| == 4
    ensures Expand(b) == Row(b.devices[0], b.channels, b.types) + (Row(b.devices[1], b.channels, b.types)
      + (Row(b.devices[2], b.channels, b.types) + Row(b.devices[3], b.channels, b.types)))
  {
    var b1 := b.(devices := b.devices[1..]);
    var b2 := b1.(devices := b1.devices[1..]);
    var b3 := b2.(devices := b2.devices[1..]);
    var b4 := b3.(devices := b3.devices[1..]);
    assert Expand(b4) == [];
    assert b1.devices[0] == b.devices[1];
    assert b2.devices[0] == b.devices[2];
    assert b3.devices[0] == b.devices[3];
    assert Expand(b3) == Row(b.devices[3], b.channels, b.types);
    assert Expand(b2) == Row(b.devices[2], b.channels, b.types) + Expand(b3);
    assert Expand(b1) == Row(b.devices[1], b.channels, b.types) + Expand(b2);
  }

  /** A block with a single device expands to that device's row. */
  lemma ExpandSingle(b: Block)
    requires WellFormed(b) && |b.devices| == 1
    ensures Expand(b) == Row(b.devices[0], b.channels, b.types)
  {
    assert Expand(b.(devices := b.devices[1..])) == [];
  }

  /** `s` is the sensor of some device and channel of `b`. */
  predicate InBlock(b: Block, s: Sensor)
    requires WellFormed(b)
  {
    exists i, j | 0 <= i < |b.devices| && 0 <= j < |b.channels| ::
      s == Sensor(b.types[j], Join(b.devices[i], b.channels[j]))
  }

  lemma {:induction false} ExpandMembers(b: Block, s: Sensor)
    requires WellFormed(b)
    ensures s in Expand(b) <==> InBlock(b, s)
    decreases |b.devices|
  {
    if |b.devices| > 0 {
      var rest := b.(devices := b.devices[1..]);
      var row := Row(b.devices[0], b.channels, b.types);
      assert Expand(b) == row + Expand(rest);
      ExpandMembers(rest, s);
      if s in row {
        var j :| 0 <= j < |row| && row[j] == s;
        assert s == Sensor(b.types[j], Join(b.devices[0], b.channels[j]));
      }
      if InBlock(b, s) {
        var i, j :| 0 <= i < |b.devices| && 0 <= j < |b.channels|
          && s == Sensor(b.types[j], Join(b.devices[i], b.channels[j]));
        if i == 0 {
          assert row[j] == s;
        } else {
          assert b.devices[i] == rest.devices[i - 1];
        }
      }
      if InBlock(rest, s) {
        var i, j :| 0 <= i < |rest.devices| && 0 <= j < |rest.channels|
          && s == Sensor(rest.types[j], Join(rest.devices[i], rest.channels[j]));
        assert rest.devices[i] == b.devices[i + 1];
      }
    }
  }

  /** `s` is the sensor of some device and channel of some block of `bs`. */
  predicate InTable(bs: seq<Block>, s: Sensor)
    requires forall k | 0 <= k < |bs| :: WellFormed(bs[k])
  {
    exists k | 0 <= k < |bs| :: InBlock(bs[k], s)
  }

  lemma {:induction false} TableMembers(bs: seq<Block>, s: Sensor)
    requires forall k | 0 <= k < |bs| :: WellFormed(bs[k])
    ensures s in ExpandAll(bs) <==> InTable(bs, s)
  {
    if |bs| > 0 {
      ExpandMembers(bs[0], s);
      TableMembers(bs[1..], s);
      if InTable(bs[1..], s) {
        var k :| 0 <= k < |bs| - 1 && InBlock(bs[1..][k], s);
        assert bs[1..][k] == bs[k + 1];
      }
      if InTable(bs, s) {
        var k :| 0 <= k < |bs| && InBlock(bs[k], s);
        if k > 0 {
          assert bs[k] == bs[1..][k - 1];
        }
      }
    }
  }

  /** No two sensors of `g` publish on the same topic. */
  predicate DistinctTopics(g: seq<Sensor>) {
    forall i, j | 0 <= i < j < |g| :: g[i].topic != g[j].topic
  }

  lemma DistinctJoin(a: seq<Sensor>, b: seq<Sensor>)
    requires DistinctTopics(a) && DistinctTopics(b)
    requires forall x, y | x in a && y in b :: x.topic != y.topic
    ensures DistinctTopics(a + b)
  {
    forall i, j | 0 <= i < j < |a + b|
      ensures (a + b)[i].topic != (a + b)[j].topic
    {
      if i >= |a| {
        assert (a + b)[i] == b[i - |a|] && (a + b)[j] == b[j - |a|];
      } else if j >= |a| {
        assert (a + b)[i] in a && (a + b)[j] in b;
      }
    }
  }

  lemma RowDistinct(d: string, channels: seq<string>, types: seq<Type>)
    requires |types| == |channels|
    requires '/' !in d && Distinct(channels)
    ensures DistinctTopics(Row(d, channels, types))
  {
    var r := Row(d, channels, types);
    forall i, j | 0 <= i < j < |r| ensures r[i].topic != r[j].topic {
      JoinInjective(d, channels[i], d, channels[j]);
    }
  }

  /** Within a valid block every topic occurs once. */
  lemma {:induction false} ExpandDistinct(b: Block)
    requires ValidBlock(b)
    ensures DistinctTopics(Expand(b))
    decreases |b.devices|
  {
    if |b.devices| > 0 {
      var rest := b.(devices := b.devices[1..]);
      var row := Row(b.devices[0], b.channels, b.types);
      assert ValidBlock(rest) by {
        assert forall i, j | 0 <= i < j < |rest.devices| :: rest.devices[i] == b.devices[i + 1] && rest.devices[j] == b.devices[j + 1];
      }
      RowDistinct(b.devices[0], b.channels, b.types);
      ExpandDistinct(rest);
      forall x, y | x in row && y in Expand(rest) ensures x.topic != y.topic {
        var jx :| 0 <= jx < |row| && row[jx] == x;
        ExpandMembers(rest, y);
        var i, j :| 0 <= i < |rest.devices| && 0 <= j < |rest.channels|
          && y == Sensor(rest.types[j], Join(rest.devices[i], rest.channels[j]));
        assert rest.devices[i] == b.devices[i + 1];
        JoinInjective(b.devices[0], b.channels[jx], rest.devices[i], rest.channels[j]);
      }
      DistinctJoin(row, Expand(rest));
    }
  }

  /** A sensor of the first block and a sensor of a later, apart block differ in topic. */
  lemma ApartTopics(bs: seq<Block>, x: Sensor, y: Sensor)
    requires |bs| > 0
    requires forall k | 0 <= k < |bs| :: WellFormed(bs[k])
    requires forall k | 0 <= k < |bs| :: ValidBlock(bs[k])
    requires forall l | 0 < l < |bs| :: Apart(bs[0], bs[l])
    requires x in Expand(bs[0]) && y in ExpandAll(bs[1..])
    ensures x.topic != y.topic
  {
    var rest := bs[1..];
    ExpandMembers(bs[0], x);
    TableMembers(rest, y);
    var i1, j1 :| 0 <= i1 < |bs[0].devices| && 0 <= j1 < |bs[0].channels|
      && x == Sensor(bs[0].types[j1], Join(bs[0].devices[i1], bs[0].channels[j1]));
    var k :| 0 <= k < |rest| && InBlock(rest[k], y);
    var b := rest[k];
    assert b == bs[k + 1];
    assert Apart(bs[0], b) && ValidBlock(b);
    var i2, j2 :| 0 <= i2 < |b.devices| && 0 <= j2 < |b.channels|
      && y == Sensor(b.types[j2], Join(b.devices[i2], b.channels[j2]));
    assert bs[0].devices[i1] in bs[0].devices && bs[0].channels[j1] in bs[0].channels;
    assert b.devices[i2] in b.devices && b.channels[j2] in b.channels;
    JoinInjective(bs[0].devices[i1], bs[0].channels[j1], b.devices[i2], b.channels[j2]);
  }

  /** Valid, pairwise apart blocks give a list in which every topic occurs once. */
  lemma {:induction false} TableDistinct(bs: seq<Block>)
    requires forall k | 0 <= k < |bs| :: WellFormed(bs[k])
    requires forall k | 0 <= k < |bs| :: ValidBlock(bs[k])
    requires forall k, l | 0 <= k < l < |bs| :: Apart(bs[k], bs[l])
    ensures DistinctTopics(ExpandAll(bs))
  {
    if |bs| > 0 {
      var rest := bs[1..];
      ExpandDistinct(bs[0]);
      TableDistinct(rest);
      forall x, y | x in Expand(bs[0]) && y in ExpandAll(rest) ensures x.topic != y.topic {
        ApartTopics(bs, x, y);
      }
      DistinctJoin(Expand(bs[0]), ExpandAll(rest));
    }
  }

  /** The device of each sensor's topic, in list order. */
  function DevicesOf(g: seq<Sensor>): (ds: seq<string>)
    ensures |ds| == |g|
  {
    seq(|g|, i requires 0 <= i < |g| => Device(g[i].topic))
  }

  /** The category of each sensor, in list order. */
  function TypesOf(g: seq<Sensor>): (ts: seq<Type>)
    ensures |ts| == |g|
  {
    seq(|g|, i requires 0 <= i < |g| => g[i].sensorType)
  }

  lemma ViewsAppend(a: seq<Sensor>, b: seq<Sensor>)
    ensures DevicesOf(a + b) == DevicesOf(a) + DevicesOf(b)
    ensures TypesOf(a + b) == TypesOf(a) + TypesOf(b)
  {}

  lemma Distribute(a: int, b: int, c: int)
    ensures (a + b) * c == a * c + b * c
  {}

  /** Every sensor of a row is on the row's device. */
  lemma RowDeviceCount(d0: string, channels: seq<string>, types: seq<Type>, d: string)
    requires '/' !in d0 && |types| == |channels|
    ensures multiset(DevicesOf(Row(d0, channels, types)))[d] == if d == d0 then |channels| else 0
  {
    var row := Row(d0, channels, types);
    forall j | 0 <= j < |row| ensures DevicesOf(row)[j] == d0 {
      JoinSplits(d0, channels[j]);
    }
    RepeatCount(DevicesOf(row), d0, d);
  }

  lemma {:induction false} DeviceCount(b: Block, d: string)
    requires WellFormed(b)
    requires forall i | 0 <= i < |b.devices| :: '/' !in b.devices[i]
    ensures multiset(DevicesOf(Expand(b)))[d] == multiset(b.devices)[d] * |b.channels|
    decreases |b.devices|
  {
    if |b.devices| > 0 {
      var d0 := b.devices[0];
      var rest := b.(devices := b.devices[1..]);
      assert forall i | 0 <= i < |rest.devices| :: rest.devices[i] == b.devices[i + 1];
      DeviceCount(rest, d);
      ViewsAppend(Row(d0, b.channels, b.types), Expand(rest));
      RowDeviceCount(d0, b.channels, b.types, d);
      assert b.devices == [d0] + rest.devices;
      var m0, mr, c := if d == d0 then 1 else 0, multiset(rest.devices)[d], |b.channels|;
      assert multiset(b.devices)[d] == m0 + mr;
      Distribute(m0, mr, c);
    }
  }

  /** In a valid block, each device has one sensor per channel. */
  lemma ExpandDeviceCount(b: Block, d: string)
    requires ValidBlock(b)
    ensures multiset(DevicesOf(Expand(b)))[d] == multiset(b.devices)[d] * |b.channels|
  {
    forall i | 0 <= i < |b.devices| ensures '/' !in b.devices[i] {
      assert b.devices[i] in b.devices;
    }
    DeviceCount(b, d);
  }

  lemma RowTypes(d: string, channels: seq<string>, types: seq<Type>)
    requires |types| == |channels|
    ensures TypesOf(Row(d, channels, types)) == types
  {}

  lemma TypeCountStep(b: Block, t: Type)
    requires WellFormed(b) && |b.devices| > 0
    ensures multiset(TypesOf(Expand(b)))[t]
      == multiset(b.types)[t] + multiset(TypesOf(Expand(b.(devices := b.devices[1..]))))[t]
  {
    var rest := b.(devices := b.devices[1..]);
    var row := Row(b.devices[0], b.channels, b.types);
    assert Expand(b) == row + Expand(rest);
    ViewsAppend(row, Expand(rest));
    RowTypes(b.devices[0], b.channels, b.types);
  }

  /** In a block, each category has one sensor per device for each channel carrying it. */
  lemma {:induction false} ExpandTypeCount(b: Block, t: Type)
    requires WellFormed(b)
    ensures multiset(TypesOf(Expand(b)))[t] == |b.devices| * multiset(b.types)[t]
    decreases |b.devices|
  {
    var m := multiset(b.types)[t];
    if |b.devices| == 0 {
      assert TypesOf(Expand(b)) == [];
    } else {
      var rest := b.(devices := b.devices[1..]);
      var n := |rest.devices|;
      ExpandTypeCount(rest, t);
      TypeCountStep(b, t);
      Distribute(n, 1, m);
      assert |b.devices| == n + 1;
    }
  }

  /** A list holding `x` everywhere contains `y` either everywhere or nowhere. */
  lemma {:induction false} RepeatCount(xs: seq<string>, x: string, y: string)
    requires forall i | 0 <= i < |xs| :: xs[i] == x
    ensures multiset(xs)[y] == if x == y then |xs| else 0
  {
    if |xs| > 0 {
      assert xs == xs[..|xs| - 1] + [xs[|xs| - 1]];
      RepeatCount(xs[..|xs| - 1], x, y);
    }
  }

  /** In a list without repetitions, each element occurs once. */
  lemma {:induction false} DistinctCount<T>(xs: seq<T>, k: nat)
    requires Distinct(xs) && k < |xs|
    ensures multiset(xs)[xs[k]] == 1
  {
    var init := xs[..|xs| - 1];
    assert xs == init + [xs[|xs| - 1]];
    if k < |xs| - 1 {
      assert init[k] == xs[k];
      assert xs[k] !in init[k + 1..] + [xs[|xs| - 1]] by {
        assert forall j | k < j < |xs| :: xs[j] != xs[k];
      }
      assert Distinct(init) by {
        assert forall i | 0 <= i < |init| :: init[i] == xs[i];
      }
      DistinctCount(init, k);
    } else {
      assert xs[k] !in init by {
        assert forall i | 0 <= i < |init| :: init[i] == xs[i] && xs[i] != xs[k];
      }
    }
  }
}
