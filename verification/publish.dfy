/** The command-line publisher: parsing a retain flag from text, and
    deciding from the argument vector what to publish. The MQTT connection
    and the publish call itself are not modelled; a successful dispatch
    returns the call that would be made. */
module Publish {
  import opened Wrappers
  import opened Text
  import opened Numerals

  /** Spellings accepted as true and as false, compared after lower-casing. */
  const TrueWords: seq<string> := ["true", "1", "t", "y", "yes"]
  const FalseWords: seq<string> := ["false", "0", "f", "n", "no"]

  /** The text of the `ValueError` raised for any other spelling. */
  const BoolError: string := "Cannot convert string to bool."

  /** Defaults of `run` and `publish` for the optional parameters. */
  const DefaultQos: int := 0
  const DefaultRetain: bool := false

  lemma WordsLowerCase()
    ensures forall w | w in TrueWords :: Lower(w) == w
    ensures forall w | w in FalseWords :: Lower(w) == w
  {
    forall k | 0 <= k < |TrueWords| ensures Lower(TrueWords[k]) == TrueWords[k] {
      LowerFixes(TrueWords[k]);
    }
    forall k | 0 <= k < |FalseWords| ensures Lower(FalseWords[k]) == FalseWords[k] {
      LowerFixes(FalseWords[k]);
    }
  }

  /** `strToBool`: a case-insensitive match against the two word lists. Every
      accepted spelling is short; anything else raises the one error text. */
  function StrToBool(s: string): (r: Result<bool, string>)
    ensures r.Ok? ==> 0 < |s| <= 5
    ensures r.Err? ==> r.error == BoolError
  {
    var l := Lower(s);
    if l in TrueWords then Ok(true)
    else if l in FalseWords then Ok(false)
    else Err(BoolError)
  }

  /** `strToBool` reads true exactly for the spellings of the true list up to
      case, false exactly for those of the false list, and fails otherwise. */
  lemma StrToBoolWords(s: string)
    ensures StrToBool(s) == Ok(true) <==> exists w | w in TrueWords :: EqualIgnoringCase(s, w)
    ensures StrToBool(s) == Ok(false) <==> exists w | w in FalseWords :: EqualIgnoringCase(s, w)
  {
    WordsLowerCase();
    StrToBoolLookup(s);
    LowerIn(s, TrueWords);
    LowerIn(s, FalseWords);
  }

  lemma StrToBoolLookup(s: string)
    ensures StrToBool(s) == Ok(true) <==> Lower(s) in TrueWords
    ensures StrToBool(s) == Ok(false) <==> Lower(s) in FalseWords
  {
    WordsDisjoint();
  }

  /** Against a list of lower-case words, looking up the lower-cased text is
      looking for a word equal to it up to case. */
  lemma LowerIn(s: string, words: seq<string>)
    requires forall w | w in words :: Lower(w) == w
    ensures Lower(s) in words <==> exists w | w in words :: EqualIgnoringCase(s, w)
  {
    forall w | w in words ensures Lower(s) == w <==> EqualIgnoringCase(s, w) {
      LowerEqual(s, w);
    }
  }

  /** No spelling is both true and false. */
  lemma WordsDisjoint()
    ensures forall w | w in TrueWords :: w !in FalseWords
  {}

  /** Lower-casing the input first changes nothing. */
  lemma StrToBoolLower(s: string)
    ensures StrToBool(Lower(s)) == StrToBool(s)
  {
    LowerIdempotent(s);
  }

  /** The empty string is an error, not a default. */
  lemma StrToBoolEmpty()
    ensures StrToBool("") == Err(BoolError)
  {}

  /** Python's `str(b)`. */
  function ShowBool(b: bool): string {
    if b then "True" else "False"
  }

  /** A flag written by `str` reads back as itself. */
  lemma StrToBoolShow(b: bool)
    ensures StrToBool(ShowBool(b)) == Ok(b)
  {
    if b {
      assert Lower("True") == "true";
    } else {
      assert Lower("False") == "false";
    }
  }

  /** The arguments `run` is called with. */
  datatype Call = Call(topic: string, msg: string, qos: int, retain: bool)

  /** How the program ends when the argument checks raise. */
  datatype Crash =
    | QosNotAnInteger(text: string)   // `int(argv[3])` raises `ValueError`
    | RetainMissing                   // `argv[4]` raises `IndexError`
    | RetainNotABool(error: string)   // `strToBool(argv[4])` raises `ValueError`

  datatype Outcome =
    | Usage                 // too few arguments: message printed, exit status 1
    | InvalidQos(qos: int)  // QoS outside 0..2: message printed, nothing published
    | Publish(call: Call)   // `run` is called with these arguments
    | Crashed(crash: Crash)

  /** The `__main__` block. `argv[0]` is the program name, so the user's
      arguments start at index 1. */
  function Dispatch(argv: seq<string>): (r: Outcome)
    ensures r == Usage <==> |argv| < 3
    ensures |argv| == 3 ==> r == Publish(Call(argv[1], argv[2], DefaultQos, DefaultRetain))
    ensures r.Publish? ==> r.call.topic == argv[1] && r.call.msg == argv[2] && 0 <= r.call.qos <= 2
    ensures r.Publish? && |argv| > 3 ==>
      (|argv| > 4 && ParseInt(argv[3]) == Some(r.call.qos) && StrToBool(argv[4]) == Ok(r.call.retain))
    ensures r.InvalidQos? <==>
      (|argv| > 3 && ParseInt(argv[3]).Some? && (ParseInt(argv[3]).value < 0 || ParseInt(argv[3]).value > 2))
    ensures r.InvalidQos? ==> r.qos == ParseInt(argv[3]).value
    ensures r.Crashed? ==> r.crash.QosNotAnInteger? || r.crash.RetainMissing? || r.crash.error == BoolError
    ensures |argv| > 3 && ParseInt(argv[3]).None? ==> r == Crashed(QosNotAnInteger(argv[3]))
    ensures |argv| == 4 && ParseInt(argv[3]).Some? && 0 <= ParseInt(argv[3]).value <= 2 ==>
      r == Crashed(RetainMissing)
    ensures |argv| > 4 && ParseInt(argv[3]).Some? && 0 <= ParseInt(argv[3]).value <= 2 ==>
      && (StrToBool(argv[4]).Ok? ==>
            r == Publish(Call(argv[1], argv[2], ParseInt(argv[3]).value, StrToBool(argv[4]).value)))
      && (StrToBool(argv[4]).Err? ==> r == Crashed(RetainNotABool(BoolError)))
  {
    if |argv| < 3 then Usage
    else if |argv| < 4 then Publish(Call(argv[1], argv[2], DefaultQos, DefaultRetain))
    else match ParseInt(argv[3])
      case None => Crashed(QosNotAnInteger(argv[3]))
      case Some(qos) =>
        if qos > 2 || qos < 0 then InvalidQos(qos)
        else if |argv| < 5 then Crashed(RetainMissing)
        else match StrToBool(argv[4])
          case Err(e) => Crashed(RetainNotABool(e))
          case Ok(retain) => Publish(Call(argv[1], argv[2], qos, retain))
  }

  /** The full argument vector that asks for `c`. */
  function Argv(program: string, c: Call): seq<string> {
    [program, c.topic, c.msg, ShowInt(c.qos), ShowBool(c.retain)]
  }

  /** Every call with a valid QoS can be requested, and dispatching its
      argument vector makes exactly that call. */
  lemma DispatchArgv(program: string, c: Call)
    requires 0 <= c.qos <= 2
    ensures Dispatch(Argv(program, c)) == Publish(c)
  {
    ParseShow(c.qos);
    StrToBoolShow(c.retain);
  }

  /** Giving only topic and message is the same as spelling out the defaults. */
  lemma DispatchDefaults(program: string, topic: string, msg: string)
    ensures Dispatch([program, topic, msg])
      == Dispatch(Argv(program, Call(topic, msg, DefaultQos, DefaultRetain)))
  {
    DispatchArgv(program, Call(topic, msg, DefaultQos, DefaultRetain));
  }

  /** The QoS range check comes before the retain flag is read: with an
      out-of-range QoS, whatever follows is never looked at. */
  lemma QosCheckedFirst(argv: seq<string>, rest: seq<string>)
    requires |argv| == 4 && ParseInt(argv[3]).Some?
    requires ParseInt(argv[3]).value < 0 || ParseInt(argv[3]).value > 2
    ensures Dispatch(argv + rest) == Dispatch(argv) == InvalidQos(ParseInt(argv[3]).value)
  {
    assert (argv + rest)[..4] == argv;
  }

  /** Arguments after the retain flag are ignored. */
  lemma ExtraArgumentsIgnored(argv: seq<string>, rest: seq<string>)
    requires |argv| >= 5
    ensures Dispatch(argv + rest) == Dispatch(argv)
  {
    assert (argv + rest)[..5] == argv[..5];
  }

  /** With a QoS but no retain flag the program never publishes: a valid QoS
      goes on to read the missing fifth argument. */
  lemma QosWithoutRetain(argv: seq<string>)
    requires |argv| == 4
    ensures !Dispatch(argv).Publish?
    ensures ParseInt(argv[3]).Some? && 0 <= ParseInt(argv[3]).value <= 2 ==>
      Dispatch(argv) == Crashed(RetainMissing)
  {}

  /** The evidently intended dispatch: a missing retain flag falls back to
      the default of `run`, as a missing QoS already does. Only the
      four-element argument vector is treated differently. */
  function DispatchDefaultRetain(argv: seq<string>): (r: Outcome)
    ensures |argv| != 4 ==> r == Dispatch(argv)
    ensures r != Crashed(RetainMissing)
    ensures r.Publish? ==> 0 <= r.call.qos <= 2
  {
    if |argv| == 4 then
      match ParseInt(argv[3])
        case None => Crashed(QosNotAnInteger(argv[3]))
        case Some(qos) =>
          if qos > 2 || qos < 0 then InvalidQos(qos)
          else Publish(Call(argv[1], argv[2], qos, DefaultRetain))
    else Dispatch(argv)
  }

  /** With the fallback, a valid QoS without a retain flag publishes with the
      default flag, exactly as if the default had been written out. */
  lemma DefaultRetainPublishes(program: string, topic: string, msg: string, qos: int)
    requires 0 <= qos <= 2
    ensures DispatchDefaultRetain([program, topic, msg, ShowInt(qos)])
      == DispatchDefaultRetain(Argv(program, Call(topic, msg, qos, DefaultRetain)))
      == Publish(Call(topic, msg, qos, DefaultRetain))
  {
    var argv := [program, topic, msg, ShowInt(qos)];
    ParseShow(qos);
    assert ParseInt(argv[3]) == Some(qos);
    DispatchArgv(program, Call(topic, msg, qos, DefaultRetain));
  }
}
