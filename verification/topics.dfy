/** MQTT topic strings of the form `device/channel`: where the separator sits,
    and the two parts on either side of it. */
module Topics {

  /** How many times `c` occurs in `s`. */
  function CountChar(s: string, c: char): (n: nat)
    ensures n <= |s|
    ensures n == 0 <==> c !in s
  {
    if |s| == 0 then 0 else (if s[0] == c then 1 else 0) + CountChar(s[1..], c)
  }

  /** Index of the first '/' in `t`, or `|t|` when there is none. */
  function SlashIndex(t: string): (k: nat)
    ensures k <= |t|
    ensures '/' !in t[..k]
    ensures k < |t| ==> t[k] == '/'
  {
    if |t| == 0 then 0
    else if t[0] == '/' then 0
    else
      var k := 1 + SlashIndex(t[1..]);
      assert t[..k] == [t[0]] + t[1..][..k - 1];
      k
  }

  /** The part of a topic before its first '/' (the whole topic if it has none). */
  function Device(t: string): (d: string)
    ensures '/' !in d
    ensures d <= t
  {
    t[..SlashIndex(t)]
  }

  /** The part of a topic after its first '/' (empty if it has none). */
  function Channel(t: string): (c: string)
    ensures |Device(t)| < |t| ==> t == Device(t) + "/" + c
  {
    var k := SlashIndex(t);
    if k < |t| then t[k + 1..] else ""
  }

  /** The topic `device/channel`. */
  function Join(device: string, channel: string): string {
    device + "/" + channel
  }

  lemma {:induction false} CountAppend(a: string, b: string, c: char)
    ensures CountChar(a + b, c) == CountChar(a, c) + CountChar(b, c)
  {
    if |a| == 0 {
      assert a + b == b;
    } else {
      assert (a + b)[1..] == a[1..] + b;
      CountAppend(a[1..], b, c);
    }
  }

  /** A '/'-free device joined to any channel splits back into the same two parts. */
  lemma JoinSplits(d: string, c: string)
    requires '/' !in d
    ensures SlashIndex(Join(d, c)) == |d|
    ensures Device(Join(d, c)) == d && Channel(Join(d, c)) == c
  {
    var t := Join(d, c);
    assert t[..|d|] == d;
    assert t[|d| + 1..] == c;
    assert forall i | 0 <= i < |d| :: t[i] == d[i];
    assert t[|d|] == '/';
  }

  /** Joining a '/'-free device and a '/'-free channel gives exactly one '/'. */
  lemma JoinHasOneSlash(d: string, c: string)
    requires '/' !in d && '/' !in c
    ensures CountChar(Join(d, c), '/') == 1
  {
    CountAppend(d + "/", c, '/');
    CountAppend(d, "/", '/');
  }

  /** On '/'-free devices, `Join` is injective. */
  lemma JoinInjective(d1: string, c1: string, d2: string, c2: string)
    requires '/' !in d1 && '/' !in d2
    ensures Join(d1, c1) == Join(d2, c2) <==> d1 == d2 && c1 == c2
  {
    JoinSplits(d1, c1);
    JoinSplits(d2, c2);
  }
}
