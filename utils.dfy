/**
 A model of the AudioMoth configuration helpers: the one-byte HID command
 messages and the validator that every configuration parameter passes
 through before it is written to the device.
 */
module Utils {

  datatype Option<+T> = None | Some(value: T)

  // ---------------------------------------------------------------------
  // HID command messages
  // ---------------------------------------------------------------------

  /** The four commands the host sends to the device. */
  datatype Command = Configuration | Restore | Read | Persist

  /** The tag byte that identifies a command on the wire. */
  function Tag(c: Command): (t: bv8)
    ensures t in {0x01, 0x04, 0x05, 0x06}
  {
    match c
    case Configuration => 0x01
    case Restore => 0x04
    case Read => 0x05
    case Persist => 0x06
  }

  /** The message sent for a command: the tag byte alone. */
  function Message(c: Command): (m: seq<bv8>)
    ensures |m| == 1 && m[0] == Tag(c)
  {
    [Tag(c)]
  }

  /** Reads a tag byte back as the command it identifies, if any. */
  function CommandOfTag(t: bv8): (c: Option<Command>)
    ensures c.None? <==> t !in {0x01, 0x04, 0x05, 0x06}
  {
    if t == 0x01 then Some(Configuration)
    else if t == 0x04 then Some(Restore)
    else if t == 0x05 then Some(Read)
    else if t == 0x06 then Some(Persist)
    else None
  }

  /** Tag and CommandOfTag are inverse to each other on the four tags. */
  lemma TagRoundTrip(c: Command, t: bv8)
    ensures CommandOfTag(Tag(c)) == Some(c)
    ensures CommandOfTag(t) == Some(c) <==> Tag(c) == t
  {
  }

  /** No two commands share a message, so the device can tell them apart. */
  lemma MessagesDistinct(c1: Command, c2: Command)
    ensures Message(c1) == Message(c2) <==> c1 == c2
  {
  }

  // ---------------------------------------------------------------------
  // Parameter validation
  // ---------------------------------------------------------------------

  /** A parameter value as the validator sees it: an integer, or anything else. */
  datatype Value = IntVal(i: int) | NonInt

  /** The reasons a value is refused; each stands for one ValueError message. */
  datatype ValidationError =
    | NotAnInteger(parameter: string)
    | GainOutOfRange(value: int)
    | SamplerateNotSupported(value: int)
    | FilterOutOfRange(value: int, sr: int)

  datatype Outcome = Pass | Fail(error: ValidationError)

  const Gains: seq<int> := [0, 1, 2, 3, 4]
  const Samplerates: seq<int> := [8000, 16000, 32000, 48000, 96000, 192000, 250000, 384000]
  const FilterNames: set<string> := {"lower_filter_freq", "higher_filter_freq"}
  const CheckedNames: set<string> := {"gain", "samplerate", "lower_filter_freq", "higher_filter_freq"}

  /** Half the sample rate converted back to an integer: the quotient is
      truncated toward zero, also for a negative rate. */
  function TruncHalf(sr: int): (h: int)
    ensures sr >= 0 ==> 0 <= h && 2 * h <= sr < 2 * h + 2
    ensures sr < 0 ==> h <= 0 && 2 * h - 2 < sr <= 2 * h
  {
    if sr >= 0 then sr / 2 else -((-sr) / 2)
  }

  /** The validator: the type check first, then a dispatch on the parameter
      name; names without a rule of their own are accepted. */
  function Validate(parameter: string, value: Value, sr: int): (o: Outcome)
    ensures value.NonInt? ==> o == Fail(NotAnInteger(parameter))
    ensures o.Fail? && value.IntVal? ==> parameter in CheckedNames
    ensures value.IntVal? && o.Fail? ==> !o.error.NotAnInteger?
    ensures value.IntVal? && o.Fail? && parameter == "gain" ==> o.error == GainOutOfRange(value.i)
    ensures value.IntVal? && o.Fail? && parameter == "samplerate" ==> o.error == SamplerateNotSupported(value.i)
    ensures value.IntVal? && o.Fail? && parameter in FilterNames ==> o.error == FilterOutOfRange(value.i, sr)
  {
    if !value.IntVal? then Fail(NotAnInteger(parameter))
    else
      var v := value.i;
      if parameter == "gain" then
        if v !in Gains then Fail(GainOutOfRange(v)) else Pass
      else if parameter == "samplerate" then
        if v !in Samplerates then Fail(SamplerateNotSupported(v)) else Pass
      else if parameter == "lower_filter_freq" || parameter == "higher_filter_freq" then
        if v % 100 != 0 || v > TruncHalf(sr) then Fail(FilterOutOfRange(v, sr)) else Pass
      else
        Pass
  }

  // ---------------------------------------------------------------------
  // The configuration constraints, stated independently of Validate
  // ---------------------------------------------------------------------

  /** The k-th multiple of 100; a named term so that the quantifier in
      MultipleOfHundred has a trigger. */
  ghost function Hundreds(k: int): (v: int)
  {
    100 * k
  }

  ghost predicate MultipleOfHundred(v: int) {
    exists k :: v == Hundreds(k)
  }

  /** v is at most half of sr, with the half rounded toward zero. */
  ghost predicate AtMostHalf(v: int, sr: int) {
    if sr >= 0 then 2 * v <= sr else 2 * v <= sr + 1
  }

  ghost predicate GainOk(v: int) { 0 <= v <= 4 }

  ghost predicate SamplerateOk(v: int) {
    v in {8000, 16000, 32000, 48000, 96000, 192000, 250000, 384000}
  }

  ghost predicate FilterOk(v: int, sr: int) {
    MultipleOfHundred(v) && AtMostHalf(v, sr)
  }

  /** What the device accepts: an integer value, and for the gain, the sample
      rate and the two band-pass filter frequencies their own range. */
  ghost predicate Acceptable(parameter: string, value: Value, sr: int) {
    && value.IntVal?
    && (parameter == "gain" ==> GainOk(value.i))
    && (parameter == "samplerate" ==> SamplerateOk(value.i))
    && (parameter in FilterNames ==> FilterOk(value.i, sr))
  }

  lemma MultipleOfHundredIff(v: int)
    ensures MultipleOfHundred(v) <==> v % 100 == 0
  {
    if v % 100 == 0 {
      assert v == Hundreds(v / 100);
    }
    if MultipleOfHundred(v) {
      var k :| v == Hundreds(k);
      assert v == 100 * k;
    }
  }

  lemma AtMostHalfIff(v: int, sr: int)
    ensures AtMostHalf(v, sr) <==> v <= TruncHalf(sr)
  {
  }

  /** Validate accepts exactly the acceptable values. */
  lemma ValidateMatchesSpec(parameter: string, value: Value, sr: int)
    ensures Validate(parameter, value, sr).Pass? <==> Acceptable(parameter, value, sr)
  {
    if value.IntVal? && parameter in FilterNames {
      MultipleOfHundredIff(value.i);
      AtMostHalfIff(value.i, sr);
    }
  }

  // ---------------------------------------------------------------------
  // Rule by rule
  // ---------------------------------------------------------------------

  lemma NonIntegerRejected(parameter: string, sr: int)
    ensures Validate(parameter, NonInt, sr).Fail?
    ensures !Acceptable(parameter, NonInt, sr)
  {
  }

  lemma GainRule(v: int, sr: int)
    ensures Validate("gain", IntVal(v), sr).Pass? <==> 0 <= v <= 4
  {
  }

  lemma SamplerateRule(v: int, sr: int)
    ensures Validate("samplerate", IntVal(v), sr).Pass? <==>
            v in {8000, 16000, 32000, 48000, 96000, 192000, 250000, 384000}
  {
  }

  /** Both filter frequencies follow one rule: a multiple of 100 that is at
      most half the sample rate. */
  lemma FilterRule(parameter: string, v: int, sr: int)
    requires parameter in FilterNames
    ensures Validate(parameter, IntVal(v), sr).Pass? <==> MultipleOfHundred(v) && AtMostHalf(v, sr)
    ensures Validate(parameter, IntVal(v), sr) == Validate("lower_filter_freq", IntVal(v), sr)
  {
    ValidateMatchesSpec(parameter, IntVal(v), sr);
  }

  /** A name without a rule of its own accepts every integer. */
  lemma UncheckedNameAccepted(parameter: string, v: int, sr: int)
    requires parameter !in CheckedNames
    ensures Validate(parameter, IntVal(v), sr) == Pass
  {
  }

  /** Only the two filter frequencies depend on the sample rate. */
  lemma SamplerateOnlyAffectsFilters(parameter: string, value: Value, sr1: int, sr2: int)
    requires parameter !in FilterNames
    ensures Validate(parameter, value, sr1) == Validate(parameter, value, sr2)
  {
  }

  /** For the filter frequencies the sample rate does matter: 4500 Hz is too
      high at 8000 Hz and allowed at 16000 Hz. */
  lemma FilterDependsOnSamplerate()
    ensures Validate("higher_filter_freq", IntVal(4500), 8000).Fail?
    ensures Validate("higher_filter_freq", IntVal(4500), 16000).Pass?
  {
  }

  lemma TruncHalfMonotone(sr1: int, sr2: int)
    requires sr1 <= sr2
    ensures TruncHalf(sr1) <= TruncHalf(sr2)
  {
  }

  /** A value accepted under one sample rate stays accepted under any larger one. */
  lemma AcceptanceMonotoneInSamplerate(parameter: string, value: Value, sr1: int, sr2: int)
    requires sr1 <= sr2
    requires Validate(parameter, value, sr1).Pass?
    ensures Validate(parameter, value, sr2).Pass?
  {
  }
}
