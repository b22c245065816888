/** The static sensor threshold table: six range bounds per sensor category,
    the list of MQTT topics whose readings belong to each category, and the
    two chat topics. Everything here is constant data; the lemmas are facts
    about that data. */
module StandardData {
  import opened Topics

  /** A sensor category with its six range bounds, held in the positional
      order of `Type.__init__` in `standardData.py`. */
  datatype Type = Type(
    typeName: string,
    minCriticalLower: real,
    minCriticalUpper: real,
    acceptMin: real,
    acceptMax: real,
    maxCriticalLower: real,
    maxCriticalUpper: real)

  /** `Type.__init__` in `standardData.py`: the name, then the six bounds in
      ascending-band order, each stored in the field of its position. */
  function MakeType(typeName: string, minCritL: real, minCritU: real, acceptMin: real,
                    acceptMax: real, maxCritL: real, maxCritU: real): (t: Type)
    ensures t.typeName == typeName
    ensures t.minCriticalLower == minCritL && t.minCriticalUpper == minCritU
    ensures t.acceptMin == acceptMin && t.acceptMax == acceptMax
    ensures t.maxCriticalLower == maxCritL && t.maxCriticalUpper == maxCritU
  {
    Type(typeName, minCritL, minCritU, acceptMin, acceptMax, maxCritL, maxCritU)
  }

  /** The six bounds of a category, in constructor order. */
  function Bounds(t: Type): (b: seq<real>)
    ensures |b| == 6
    ensures MakeType(t.typeName, b[0], b[1], b[2], b[3], b[4], b[5]) == t
  {
    [t.minCriticalLower, t.minCriticalUpper, t.acceptMin, t.acceptMax,
     t.maxCriticalLower, t.maxCriticalUpper]
  }

  /** Reading the bounds back out of a constructed category gives the
      constructor arguments, in order. */
  lemma BoundsOfMakeType(typeName: string, a: real, b: real, c: real, d: real, e: real, f: real)
    ensures Bounds(MakeType(typeName, a, b, c, d, e, f)) == [a, b, c, d, e, f]
  {}

  /** The bands nest: critical-low below acceptable below critical-high. */
  predicate Ordered(t: Type) {
    && t.minCriticalLower <= t.minCriticalUpper
    && t.minCriticalUpper <= t.acceptMin
    && t.acceptMin <= t.acceptMax
    && t.acceptMax <= t.maxCriticalLower
    && t.maxCriticalLower <= t.maxCriticalUpper
  }

  /** A category is ordered exactly when its bound list is non-decreasing. */
  lemma OrderedBounds(t: Type)
    ensures Ordered(t) <==> forall i, j | 0 <= i <= j < 6 :: Bounds(t)[i] <= Bounds(t)[j]
  {
    var b := Bounds(t);
    if Ordered(t) {
      forall i, j | 0 <= i <= j < 6 ensures b[i] <= b[j] {
        OrderedStep(b, i, j);
      }
    }
  }

  lemma {:induction false} OrderedStep(b: seq<real>, i: nat, j: nat)
    requires |b| == 6 && i <= j < 6
    requires forall k | 0 <= k < 5 :: b[k] <= b[k + 1]
    ensures b[i] <= b[j]
    decreases j - i
  {
    if i < j {
      OrderedStep(b, i + 1, j);
    }
  }

  /** A sensor: the category of its readings and the topic it publishes on. */
  datatype Sensor = Sensor(sensorType: Type, topic: string)

  /** An entry of the chat list: a description and the topic it uses. */
  datatype ChatTopic = ChatTopic(description: string, topic: string)

  // The sixteen categories. Integer bounds of `standardData.py` are written as reals.
  const bAirTempType := MakeType("Air Temperature", 18.0, 18.0, 25.0, 32.0, 35.0, 36.0)
  const bAirPressureType := MakeType("Air Pressure", 900.0, 920.0, 950.0, 1040.0, 1080.0, 1100.0)
  const bO2Type := MakeType("O2 Concentration", 0.0, 18.0, 21.0, 23.0, 25.0, 35.0)
  const bCO2Type := MakeType("CO2 Concentration", 0.0, 0.0, 300.0, 2900.0, 3000.0, 4000.0)
  const bCOType := MakeType("CO Concentration", 0.0, 0.0, 0.0, 5.0, 25.0, 30.0)
  const bO3Type := MakeType("O3 Concentration", 0.0, 0.0, 0.0, 100.0, 150.0, 200.0)
  const bHumidityType := MakeType("Humidity", 0.0, 0.0, 40.0, 95.0, 100.0, 100.0)
  const pbrTempLType := MakeType("Temperature (PBR, l)", 18.0, 18.0, 25.0, 32.0, 35.0, 36.0)
  const pbrTempGType := MakeType("Temperature (PBR, g)", 18.0, 18.0, 25.0, 32.0, 35.0, 36.0)
  const pbrAirPressureType := MakeType("Air Pressure (PBR, g)", 900.0, 920.0, 950.0, 1040.0, 1080.0, 1100.0)
  const pbrDisO2Type := MakeType("Dissolved O2 (PBR, l)", 0.0, 3.0, 5.0, 15.0, 16.0, 20.0)
  const pbrO2Type := MakeType("O2 (PBR, g)", 0.0, 18.0, 21.0, 35.0, 35.0, 35.0)
  const pbrCO2Type := MakeType("CO2 (PBR, g)", 0.0, 0.0, 0.0, 400.0, 1000.0, 3000.0)
  const pbrHumidityType := MakeType("Humidity (PBR, g)", 0.0, 18.0, 21.0, 35.0, 35.0, 35.0)
  const pbrPHType := MakeType("pH Value (PBR, l)", 0.0, 5.0, 6.0, 11.0, 12.0, 14.0)
  const pbrODType := MakeType("Optical Density (PBR, l)", 0.0, 0.0, 0.1, 0.9, 1.0, 1.0)

  /** The sixteen categories, board categories first. */
  const categories: seq<Type> := [
    bAirTempType, bAirPressureType, bO2Type, bCO2Type, bCOType, bO3Type, bHumidityType,
    pbrTempLType, pbrTempGType, pbrAirPressureType, pbrDisO2Type, pbrO2Type,
    pbrCO2Type, pbrHumidityType, pbrPHType, pbrODType
  ]

  /** Every category has nested bands; neighbouring bounds may coincide. */
  lemma CategoriesOrdered()
    ensures forall k | 0 <= k < |categories| :: Ordered(categories[k])
    ensures bAirTempType.minCriticalLower == bAirTempType.minCriticalUpper
    ensures pbrO2Type.acceptMax == pbrO2Type.maxCriticalLower == pbrO2Type.maxCriticalUpper
  {}

  /** Board air temperatures. */
  const boardAirTemperatures: seq<Sensor> := [
    Sensor(bAirTempType, Join("board1", "temp1_am")),
    Sensor(bAirTempType, Join("board1", "temp2_am")),
    Sensor(bAirTempType, Join("board1", "temp3_am")),
    Sensor(bAirTempType, Join("board1", "temp4_am")),
    Sensor(bAirTempType, Join("board2", "temp1_am")),
    Sensor(bAirTempType, Join("board2", "temp2_am")),
    Sensor(bAirTempType, Join("board2", "temp3_am")),
    Sensor(bAirTempType, Join("board2", "temp4_am")),
    Sensor(bAirTempType, Join("board3", "temp1_am")),
    Sensor(bAirTempType, Join("board3", "temp2_am")),
    Sensor(bAirTempType, Join("board3", "temp3_am")),
    Sensor(bAirTempType, Join("board3", "temp4_am")),
    Sensor(bAirTempType, Join("board4", "temp1_am")),
    Sensor(bAirTempType, Join("board4", "temp2_am")),
    Sensor(bAirTempType, Join("board4", "temp3_am")),
    Sensor(bAirTempType, Join("board4", "temp4_am"))
  ]

  /** Board air pressures. */
  const boardAirPressures: seq<Sensor> := [
    Sensor(bAirPressureType, Join("board1", "amb_press")),
    Sensor(bAirPressureType, Join("board2", "amb_press")),
    Sensor(bAirPressureType, Join("board3", "amb_press")),
    Sensor(bAirPressureType, Join("board4", "amb_press"))
  ]

  /** Board O2 concentration. */
  const boardO2: seq<Sensor> := [
    Sensor(bO2Type, Join("board1", "o2")),
    Sensor(bO2Type, Join("board2", "o2")),
    Sensor(bO2Type, Join("board3", "o2")),
    Sensor(bO2Type, Join("board4", "o2"))
  ]

  /** Board CO2 concentration. */
  const boardCO2: seq<Sensor> := [
    Sensor(bCO2Type, Join("board1", "co2")),
    Sensor(bCO2Type, Join("board2", "co2")),
    Sensor(bCO2Type, Join("board3", "co2")),
    Sensor(bCO2Type, Join("board4", "co2"))
  ]

  /** Board CO concentration. */
  const boardCO: seq<Sensor> := [
    Sensor(bCOType, Join("board1", "co")),
    Sensor(bCOType, Join("board2", "co")),
    Sensor(bCOType, Join("board3", "co")),
    Sensor(bCOType, Join("board4", "co"))
  ]

  /** Board O3 concentration. */
  const boardO3: seq<Sensor> := [
    Sensor(bO3Type, Join("board1", "o3")),
    Sensor(bO3Type, Join("board2", "o3")),
    Sensor(bO3Type, Join("board3", "o3")),
    Sensor(bO3Type, Join("board4", "o3"))
  ]

  /** Board humidities. */
  const boardHumidities: seq<Sensor> := [
    Sensor(bHumidityType, Join("board1", "humid1_am")),
    Sensor(bHumidityType, Join("board1", "humid2_am")),
    Sensor(bHumidityType, Join("board1", "humid3_am")),
    Sensor(bHumidityType, Join("board1", "humid4_am")),
    Sensor(bHumidityType, Join("board2", "humid1_am")),
    Sensor(bHumidityType, Join("board2", "humid2_am")),
    Sensor(bHumidityType, Join("board2", "humid3_am")),
    Sensor(bHumidityType, Join("board2", "humid4_am")),
    Sensor(bHumidityType, Join("board3", "humid1_am")),
    Sensor(bHumidityType, Join("board3", "humid2_am")),
    Sensor(bHumidityType, Join("board3", "humid3_am")),
    Sensor(bHumidityType, Join("board3", "humid4_am")),
    Sensor(bHumidityType, Join("board4", "humid1_am")),
    Sensor(bHumidityType, Join("board4", "humid2_am")),
    Sensor(bHumidityType, Join("board4", "humid3_am")),
    Sensor(bHumidityType, Join("board4", "humid4_am"))
  ]

  /** Photobioreactor. */
  const photobioreactor: seq<Sensor> := [
    Sensor(pbrTempLType, Join("pbr1", "temp_1")),
    Sensor(pbrTempGType, Join("pbr1", "temp_g_2")),
    Sensor(pbrAirPressureType, Join("pbr1", "amb_press_2")),
    Sensor(pbrDisO2Type, Join("pbr1", "do")),
    Sensor(pbrO2Type, Join("pbr1", "o2_2")),
    Sensor(pbrCO2Type, Join("pbr1", "co2_2")),
    Sensor(pbrHumidityType, Join("pbr1", "rh_2")),
    Sensor(pbrPHType, Join("pbr1", "ph")),
    Sensor(pbrODType, Join("pbr1", "od"))
  ]

  /** The whole sensor list, in the order of `standardData.py`. */
  const sensors: seq<Sensor> :=
    boardAirTemperatures + (boardAirPressures + (boardO2 + (boardCO2 + (boardCO
    + (boardO3 + (boardHumidities + photobioreactor))))))

  const chat: seq<ChatTopic> := [
    ChatTopic("Messages from the GUI", Join("chatbot", "user")),
    ChatTopic("Messages for the GUI", Join("chatbot", "mission_control"))
  ]
}
