/** Facts about the constant sensor table: its block layout, unique topics
    of the form `device/channel`, ordered bounds for every category, and
    consistent use of categories across the boards. */
module SensorFacts {
  import opened Topics
  import opened StandardData
  import opened SensorTable

  /** The four measurement boards and the photobioreactor, as topic devices. */
  const Boards: seq<string> := ["board1", "board2", "board3", "board4"]
  const Pbr: string := "pbr1"

  const BoardTypes: seq<Type> :=
    [bAirTempType, bAirPressureType, bO2Type, bCO2Type, bCOType, bO3Type, bHumidityType]
  const PbrTypes: seq<Type> :=
    [pbrTempLType, pbrTempGType, pbrAirPressureType, pbrDisO2Type, pbrO2Type,
     pbrCO2Type, pbrHumidityType, pbrPHType, pbrODType]

  const TempChannels: seq<string> := ["temp1_am", "temp2_am", "temp3_am", "temp4_am"]
  const HumidityChannels: seq<string> := ["humid1_am", "humid2_am", "humid3_am", "humid4_am"]
  const PbrChannels: seq<string> :=
    ["temp_1", "temp_g_2", "amb_press_2", "do", "o2_2", "co2_2", "rh_2", "ph", "od"]

  /** The sensor list as eight blocks, one per commented group of `standardData.py`. */
  const blocks: seq<Block> := [
    Block(Boards, TempChannels, [bAirTempType, bAirTempType, bAirTempType, bAirTempType]),
    Block(Boards, ["amb_press"], [bAirPressureType]),
    Block(Boards, ["o2"], [bO2Type]),
    Block(Boards, ["co2"], [bCO2Type]),
    Block(Boards, ["co"], [bCOType]),
    Block(Boards, ["o3"], [bO3Type]),
    Block(Boards, HumidityChannels, [bHumidityType, bHumidityType, bHumidityType, bHumidityType]),
    Block([Pbr], PbrChannels, PbrTypes)
  ]

  lemma Layout0()
    ensures boardAirTemperatures == Expand(blocks[0])
  {
    var b, g := blocks[0], boardAirTemperatures;
    RowIs(g[..4], Boards[0], b.channels, b.types);
    RowIs(g[4..8], Boards[1], b.channels, b.types);
    RowIs(g[8..12], Boards[2], b.channels, b.types);
    RowIs(g[12..], Boards[3], b.channels, b.types);
    SplitFour(g, 4, 8, 12);
    ExpandFour(b);
  }

  lemma Layout1()
    ensures boardAirPressures == Expand(blocks[1])
  {
    var b, g := blocks[1], boardAirPressures;
    RowIs(g[..1], Boards[0], b.channels, b.types);
    RowIs(g[1..2], Boards[1], b.channels, b.types);
    RowIs(g[2..3], Boards[2], b.channels, b.types);
    RowIs(g[3..], Boards[3], b.channels, b.types);
    SplitFour(g, 1, 2, 3);
    ExpandFour(b);
  }

  lemma Layout2()
    ensures boardO2 == Expand(blocks[2])
  {
    var b, g := blocks[2], boardO2;
    RowIs(g[..1], Boards[0], b.channels, b.types);
    RowIs(g[1..2], Boards[1], b.channels, b.types);
    RowIs(g[2..3], Boards[2], b.channels, b.types);
    RowIs(g[3..], Boards[3], b.channels, b.types);
    SplitFour(g, 1, 2, 3);
    ExpandFour(b);
  }

  lemma Layout3()
    ensures boardCO2 == Expand(blocks[3])
  {
    var b, g := blocks[3], boardCO2;
    RowIs(g[..1], Boards[0], b.channels, b.types);
    RowIs(g[1..2], Boards[1], b.channels, b.types);
    RowIs(g[2..3], Boards[2], b.channels, b.types);
    RowIs(g[3..], Boards[3], b.channels, b.types);
    SplitFour(g, 1, 2, 3);
    ExpandFour(b);
  }

  lemma Layout4()
    ensures boardCO == Expand(blocks[4])
  {
    var b, g := blocks[4], boardCO;
    RowIs(g[..1], Boards[0], b.channels, b.types);
    RowIs(g[1..2], Boards[1], b.channels, b.types);
    RowIs(g[2..3], Boards[2], b.channels, b.types);
    RowIs(g[3..], Boards[3], b.channels, b.types);
    SplitFour(g, 1, 2, 3);
    ExpandFour(b);
  }

  lemma Layout5()
    ensures boardO3 == Expand(blocks[5])
  {
    var b, g := blocks[5], boardO3;
    RowIs(g[..1], Boards[0], b.channels, b.types);
    RowIs(g[1..2], Boards[1], b.channels, b.types);
    RowIs(g[2..3], Boards[2], b.channels, b.types);
    RowIs(g[3..], Boards[3], b.channels, b.types);
    SplitFour(g, 1, 2, 3);
    ExpandFour(b);
  }

  lemma Layout6()
    ensures boardHumidities == Expand(blocks[6])
  {
    var b, g := blocks[6], boardHumidities;
    RowIs(g[..4], Boards[0], b.channels, b.types);
    RowIs(g[4..8], Boards[1], b.channels, b.types);
    RowIs(g[8..12], Boards[2], b.channels, b.types);
    RowIs(g[12..], Boards[3], b.channels, b.types);
    SplitFour(g, 4, 8, 12);
    ExpandFour(b);
  }

  lemma Layout7()
    ensures photobioreactor == Expand(blocks[7])
  {
    ExpandSingle(blocks[7]);
  }

  lemma BlocksWellFormed()
    ensures forall k | 0 <= k < |blocks| :: WellFormed(blocks[k])
  {}

  /** The last four blocks expand to the last four groups. */
  lemma LayoutTail()
    ensures forall k | 0 <= k < |blocks| :: WellFormed(blocks[k])
    ensures ExpandAll(blocks[4..]) == boardCO + (boardO3 + (boardHumidities + photobioreactor))
  {
    BlocksWellFormed();
    Layout4(); Layout5(); Layout6(); Layout7();
    assert ExpandAll(blocks[7..]) == photobioreactor;
    assert ExpandAll(blocks[6..]) == boardHumidities + ExpandAll(blocks[7..]);
    assert ExpandAll(blocks[5..]) == boardO3 + ExpandAll(blocks[6..]);
    assert ExpandAll(blocks[4..]) == boardCO + ExpandAll(blocks[5..]);
  }

  /** The sensor list is the expansion of its eight blocks. */
  lemma Layout()
    ensures forall k | 0 <= k < |blocks| :: WellFormed(blocks[k])
    ensures sensors == ExpandAll(blocks)
  {
    LayoutTail();
    Layout0(); Layout1(); Layout2(); Layout3();
    assert ExpandAll(blocks[3..]) == boardCO2 + ExpandAll(blocks[4..]);
    assert ExpandAll(blocks[2..]) == boardO2 + ExpandAll(blocks[3..]);
    assert ExpandAll(blocks[1..]) == boardAirPressures + ExpandAll(blocks[2..]);
    assert ExpandAll(blocks) == boardAirTemperatures + ExpandAll(blocks[1..]);
  }

  /** Names that are pairwise different and free of slashes. */
  predicate Plain(names: seq<string>) {
    Distinct(names) && forall n | n in names :: '/' !in n
  }

  lemma NamesPlain()
    ensures Plain(Boards) && Plain([Pbr])
    ensures Plain(TempChannels) && Plain(HumidityChannels)
    ensures Plain(["amb_press"]) && Plain(["o2"]) && Plain(["co2"]) && Plain(["co"]) && Plain(["o3"])
  {}

  lemma PbrChannelsPlain()
    ensures Plain(PbrChannels)
  {}

  lemma BlocksValid()
    ensures forall k | 0 <= k < |blocks| :: ValidBlock(blocks[k])
  {
    NamesPlain();
    PbrChannelsPlain();
    BlocksWellFormed();
    forall k | 0 <= k < |blocks| ensures ValidBlock(blocks[k]) {
      assert Plain(blocks[k].devices) && Plain(blocks[k].channels);
    }
  }

  lemma BlocksApart()
    ensures forall k, l | 0 <= k < l < |blocks| :: Apart(blocks[k], blocks[l])
  {}

  /** Devices and categories of block `k`: the first seven are board blocks
      with board categories, the last is the photobioreactor's. */
  lemma BlockOf(k: nat)
    requires k < |blocks|
    ensures k < 7 ==> blocks[k].devices == Boards
    ensures k < 7 ==> forall j | 0 <= j < |blocks[k].types| :: blocks[k].types[j] in BoardTypes
    ensures k == 7 ==> blocks[k].devices == [Pbr] && blocks[k].types == PbrTypes
    ensures Pbr !in Boards
  {}

  lemma PbrTypesNotOnBoards()
    ensures forall j | 0 <= j < |PbrTypes| :: PbrTypes[j] !in BoardTypes
  {}

  /** The block, device and channel a listed sensor comes from. */
  lemma Locate(s: Sensor) returns (k: nat, i: nat, j: nat)
    requires s in sensors
    ensures k < |blocks| && i < |blocks[k].devices| && j < |blocks[k].channels| == |blocks[k].types|
    ensures s == Sensor(blocks[k].types[j], Join(blocks[k].devices[i], blocks[k].channels[j]))
    ensures '/' !in blocks[k].devices[i] && '/' !in blocks[k].channels[j]
  {
    Layout();
    BlocksValid();
    TableMembers(blocks, s);
    k, i, j :| 0 <= k < |blocks| && 0 <= i < |blocks[k].devices| && 0 <= j < |blocks[k].channels|
      && s == Sensor(blocks[k].types[j], Join(blocks[k].devices[i], blocks[k].channels[j]));
    assert blocks[k].devices[i] in blocks[k].devices;
    assert blocks[k].channels[j] in blocks[k].channels;
  }

  /** No two sensors share a topic, so a topic names at most one category. */
  lemma TopicsUnique()
    ensures DistinctTopics(sensors)
    ensures forall i, j | 0 <= i < |sensors| && 0 <= j < |sensors| ::
      sensors[i].topic == sensors[j].topic ==> sensors[i] == sensors[j]
  {
    Layout();
    BlocksValid();
    BlocksApart();
    TableDistinct(blocks);
    forall i, j | 0 <= i < |sensors| && 0 <= j < |sensors| && sensors[i].topic == sensors[j].topic
      ensures sensors[i] == sensors[j]
    {
      if i < j {
        assert false;
      } else if j < i {
        assert false;
      }
    }
  }

  /** Every topic is `device/channel` with exactly one slash, the device being
      one of the four boards or the photobioreactor. */
  lemma TopicShape(s: Sensor)
    requires s in sensors
    ensures CountChar(s.topic, '/') == 1
    ensures s.topic == Join(Device(s.topic), Channel(s.topic))
    ensures Device(s.topic) in Boards || Device(s.topic) == Pbr
  {
    var k, i, j := Locate(s);
    var d, c := blocks[k].devices[i], blocks[k].channels[j];
    JoinHasOneSlash(d, c);
    JoinSplits(d, c);
    BlockOf(k);
    if k < 7 {
      assert d in Boards;
    }
  }

  /** Board sensors use board categories, photobioreactor sensors use
      photobioreactor categories. */
  lemma TopicTypes(s: Sensor)
    requires s in sensors
    ensures Device(s.topic) in Boards ==> s.sensorType in BoardTypes
    ensures Device(s.topic) == Pbr ==> s.sensorType in PbrTypes
  {
    var k, i, j := Locate(s);
    JoinSplits(blocks[k].devices[i], blocks[k].channels[j]);
    BlockOf(k);
    if k == 7 {
      assert blocks[k].devices[i] == Pbr;
    } else {
      assert blocks[k].devices[i] in Boards;
    }
  }

  /** Whatever one board measures on a channel, every board measures on that
      channel, with the same category. */
  lemma BoardsMirror(s: Sensor, b: string)
    requires s in sensors && Device(s.topic) in Boards
    requires b in Boards
    ensures Sensor(s.sensorType, Join(b, Channel(s.topic))) in sensors
  {
    var k, i, j := Locate(s);
    var c := blocks[k].channels[j];
    JoinSplits(blocks[k].devices[i], c);
    BlockOf(k);
    if k == 7 {
      assert false;
    }
    var i' :| 0 <= i' < |Boards| && Boards[i'] == b;
    var m := Sensor(s.sensorType, Join(b, c));
    MirrorMember(k, i', j, m);
  }

  lemma MirrorMember(k: nat, i: nat, j: nat, m: Sensor)
    requires k < |blocks| && i < |blocks[k].devices| && j < |blocks[k].channels|
    requires m == Sensor(blocks[k].types[j], Join(blocks[k].devices[i], blocks[k].channels[j]))
    ensures m in sensors
  {
    Layout();
    assert InBlock(blocks[k], m);
    assert InTable(blocks, m);
    TableMembers(blocks, m);
  }

  /** Two board sensors on the same channel have the same category. */
  lemma SameChannelSameType(s1: Sensor, s2: Sensor)
    requires s1 in sensors && s2 in sensors
    requires Device(s1.topic) in Boards && Device(s2.topic) in Boards
    requires Channel(s1.topic) == Channel(s2.topic)
    ensures s1.sensorType == s2.sensorType
  {
    BoardsMirror(s1, Device(s2.topic));
    TopicShape(s2);
    var m := Sensor(s1.sensorType, Join(Device(s2.topic), Channel(s1.topic)));
    TopicsUnique();
    var i :| 0 <= i < |sensors| && sensors[i] == m;
    var j :| 0 <= j < |sensors| && sensors[j] == s2;
    assert sensors[i].topic == sensors[j].topic;
  }

  /** Splits a count over the sensor list into one count per group. */
  lemma GroupViews()
    ensures DevicesOf(sensors) == DevicesOf(boardAirTemperatures) + (DevicesOf(boardAirPressures)
      + (DevicesOf(boardO2) + (DevicesOf(boardCO2) + (DevicesOf(boardCO) + (DevicesOf(boardO3)
      + (DevicesOf(boardHumidities) + DevicesOf(photobioreactor)))))))
    ensures TypesOf(sensors) == TypesOf(boardAirTemperatures) + (TypesOf(boardAirPressures)
      + (TypesOf(boardO2) + (TypesOf(boardCO2) + (TypesOf(boardCO) + (TypesOf(boardO3)
      + (TypesOf(boardHumidities) + TypesOf(photobioreactor)))))))
  {
    var g6 := boardHumidities + photobioreactor;
    var g5 := boardO3 + g6;
    var g4 := boardCO + g5;
    var g3 := boardCO2 + g4;
    var g2 := boardO2 + g3;
    var g1 := boardAirPressures + g2;
    ViewsAppend(boardHumidities, photobioreactor);
    ViewsAppend(boardO3, g6);
    ViewsAppend(boardCO, g5);
    ViewsAppend(boardCO2, g4);
    ViewsAppend(boardO2, g3);
    ViewsAppend(boardAirPressures, g2);
    ViewsAppend(boardAirTemperatures, g1);
  }

  lemma BoardsOnce(d: string)
    ensures multiset(Boards)[d] == if d in Boards then 1 else 0
    ensures multiset([Pbr])[d] == if d == Pbr then 1 else 0
  {
    NamesPlain();
    if d in Boards {
      var i :| 0 <= i < |Boards| && Boards[i] == d;
      DistinctCount(Boards, i);
    }
  }

  lemma DeviceCounts(d: string)
    ensures multiset(DevicesOf(sensors))[d]
      == (if d in Boards then 13 else 0) + (if d == Pbr then 9 else 0)
  {
    BoardsOnce(d);
    Layout0(); Layout1(); Layout2(); Layout3(); Layout4(); Layout5(); Layout6(); Layout7();
    BlocksValid();
    GroupViews();
    ExpandDeviceCount(blocks[0], d); ExpandDeviceCount(blocks[1], d);
    ExpandDeviceCount(blocks[2], d); ExpandDeviceCount(blocks[3], d);
    ExpandDeviceCount(blocks[4], d); ExpandDeviceCount(blocks[5], d);
    ExpandDeviceCount(blocks[6], d); ExpandDeviceCount(blocks[7], d);
  }

  /** The list has 61 sensors: 13 on each board and 9 on the photobioreactor. */
  lemma SensorCounts(d: string)
    ensures |sensors| == 61
    ensures d in Boards ==> multiset(DevicesOf(sensors))[d] == 13
    ensures multiset(DevicesOf(sensors))[Pbr] == 9
    ensures d !in Boards && d != Pbr ==> multiset(DevicesOf(sensors))[d] == 0
  {
    DeviceCounts(d);
    DeviceCounts(Pbr);
    BlockOf(0);
  }

  lemma PbrTypeCounts(k: nat, n: nat)
    requires k < |blocks| && n < |PbrTypes|
    ensures multiset(blocks[k].types)[PbrTypes[n]] == if k == 7 then 1 else 0
  {
    BlockOf(k);
    PbrTypesNotOnBoards();
    if k < 7 {
      assert PbrTypes[n] !in BoardTypes;
      assert PbrTypes[n] !in blocks[k].types;
    } else {
      PbrTypesDistinct();
      DistinctCount(PbrTypes, n);
    }
  }

  lemma PbrTypesDistinct()
    ensures Distinct(PbrTypes)
  {}

  /** Each photobioreactor category is used by exactly one sensor. */
  lemma PbrTypesOnce(n: nat)
    requires n < |PbrTypes|
    ensures multiset(TypesOf(sensors))[PbrTypes[n]] == 1
  {
    var t := PbrTypes[n];
    Layout0(); Layout1(); Layout2(); Layout3(); Layout4(); Layout5(); Layout6(); Layout7();
    BlocksWellFormed();
    GroupViews();
    ExpandTypeCount(blocks[0], t); ExpandTypeCount(blocks[1], t);
    ExpandTypeCount(blocks[2], t); ExpandTypeCount(blocks[3], t);
    ExpandTypeCount(blocks[4], t); ExpandTypeCount(blocks[5], t);
    ExpandTypeCount(blocks[6], t); ExpandTypeCount(blocks[7], t);
    PbrTypeCounts(0, n); PbrTypeCounts(1, n); PbrTypeCounts(2, n); PbrTypeCounts(3, n);
    PbrTypeCounts(4, n); PbrTypeCounts(5, n); PbrTypeCounts(6, n); PbrTypeCounts(7, n);
  }

  /** A sensor of a photobioreactor category sits on the photobioreactor. */
  lemma PbrTypesOnPbr(s: Sensor)
    requires s in sensors && s.sensorType in PbrTypes
    ensures Device(s.topic) == Pbr
  {
    TopicShape(s);
    TopicTypes(s);
    PbrTypesNotOnBoards();
  }

  /** The two chat topics differ from each other. */
  lemma ChatTopicsDistinct()
    ensures chat[0].topic != chat[1].topic
  {
    JoinInjective("chatbot", "user", "chatbot", "mission_control");
  }

  /** Both chat topics belong to the chatbot, which is no sensor device. */
  lemma ChatDevice()
    ensures Device(chat[0].topic) == "chatbot" && Device(chat[1].topic) == "chatbot"
    ensures "chatbot" !in Boards && "chatbot" != Pbr
  {
    JoinSplits("chatbot", "user");
    JoinSplits("chatbot", "mission_control");
  }

  /** No sensor publishes on a chat topic. */
  lemma ChatTopicsApart(s: Sensor)
    requires s in sensors
    ensures chat[0].topic != s.topic && chat[1].topic != s.topic
  {
    TopicShape(s);
    ChatDevice();
  }

  /** Every sensor's category has nested bands. */
  lemma SensorsOrdered(s: Sensor)
    requires s in sensors
    ensures Ordered(s.sensorType)
  {
    TopicShape(s);
    TopicTypes(s);
    TypesOrdered();
  }

  /** The sixteen categories are the board categories followed by the
      photobioreactor categories, so all of them have nested bands. */
  lemma TypesOrdered()
    ensures categories == BoardTypes + PbrTypes
    ensures forall t | t in BoardTypes :: Ordered(t)
    ensures forall t | t in PbrTypes :: Ordered(t)
  {
    CategoriesOrdered();
    assert forall k | 0 <= k < |BoardTypes| :: BoardTypes[k] == categories[k];
    assert forall k | 0 <= k < |PbrTypes| :: PbrTypes[k] == categories[k + 7];
  }
}
